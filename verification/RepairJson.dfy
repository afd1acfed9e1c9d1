/**
 `safeParseToolInput` (packages/forge-provider/src/base.ts:309-341): parse the
 argument text of a tool call, and when that fails repair a truncated text by
 closing an open string and the open brackets, then parse once more.
 */
module RepairJson {
  import opened Text
  import opened Json

  // ---------------------------------------------------------------- the repair

  /** Quotes not preceded by a backslash, as the source's pattern counts them. */
  function CountQuotes(esc: bool, s: string): nat
    decreases |s|
  {
    if s == "" then 0
    else (if s[0] == '"' && !esc then 1 else 0) + CountQuotes(s[0] == '\\', s[1..])
  }

  /** The bracket scanner; `stack` holds the closers still owed, innermost first. */
  datatype Scan = Scan(quote: Quote, stack: string)

  function Step(x: Scan, c: char): Scan {
    if x.quote != Out || c == '"' then x.(quote := NextQuote(x.quote, c))
    else if c == '{' then x.(stack := "}" + x.stack)
    else if c == '[' then x.(stack := "]" + x.stack)
    else if c == '}' || c == ']' then x.(stack := if x.stack == "" then "" else x.stack[1..])
    else x
  }

  function Run(x: Scan, s: string): Scan
    decreases |s|
  {
    if s == "" then x else Run(Step(x, s[0]), s[1..])
  }

  const START := Scan(Out, "")

  function CloseString(raw: string): string {
    if CountQuotes(false, raw) % 2 == 1 then raw + "\"" else raw
  }

  function Repair(raw: string): string {
    CloseString(raw) + Run(START, CloseString(raw)).stack
  }

  /** The whole function, over the outcome of `JSON.parse`; None is the source's `undefined`. */
  function Parsed<V>(raw: Option<string>, parse: string -> Option<V>, empty: V): Option<V> {
    if raw.None? || Trim(raw.value) == "" then Some(empty)
    else if parse(raw.value).Some? then parse(raw.value)
    else parse(Repair(raw.value))
  }

  function Reverse(s: string): string {
    if s == "" then "" else Reverse(s[1..]) + [s[0]]
  }

  lemma {:induction false} ReversePush(s: string, c: char)
    ensures Reverse(s + [c]) == [c] + Reverse(s)
    decreases |s|
  {
    if s != "" {
      assert (s + [c])[1..] == s[1..] + [c];
      ReversePush(s[1..], c);
    } else {
      assert (s + [c])[1..] == "";
    }
  }

  method SafeParseToolInput<V>(raw: Option<string>, parse: string -> Option<V>, empty: V) returns (r: Option<V>)
    ensures r == Parsed(raw, parse, empty)
  {
    if raw.None? || |Trim(raw.value)| == 0 { return Some(empty); }
    var strict := parse(raw.value);
    if strict.Some? { return strict; }
    var s := raw.value;
    var quotes := CountQuotes(false, s);
    if quotes % 2 == 1 { s := s + "\""; }
    var stack, inStr, esc := "", false, false;
    var i := 0;
    assert s[0..] == s;
    while i < |s|
      invariant 0 <= i <= |s| && (esc ==> inStr)
      invariant Run(Scan(if esc then Escaped else if inStr then In else Out, Reverse(stack)), s[i..]) == Run(START, s)
    {
      var ch := s[i];
      assert s[i..][1..] == s[i + 1..];
      if inStr {
        if esc { esc := false; }
        else if ch == '\\' { esc := true; }
        else if ch == '"' { inStr := false; }
      } else if ch == '"' {
        inStr := true;
      } else if ch == '{' {
        ReversePush(stack, '}');
        stack := stack + "}";
      } else if ch == '[' {
        ReversePush(stack, ']');
        stack := stack + "]";
      } else if (ch == '}' || ch == ']') && stack != "" {
        ReversePush(stack[..|stack| - 1], stack[|stack| - 1]);
        assert stack == stack[..|stack| - 1] + [stack[|stack| - 1]];
        stack := stack[..|stack| - 1];
      }
      i := i + 1;
    }
    assert s[i..] == "" && Reverse(stack) == Run(START, s).stack;
    ghost var target := s + Reverse(stack);
    while stack != ""
      invariant s + Reverse(stack) == target
      decreases |stack|
    {
      var top := stack[|stack| - 1];
      ReversePush(stack[..|stack| - 1], top);
      assert stack == stack[..|stack| - 1] + [top];
      ConcatAssoc(s, [top], Reverse(stack[..|stack| - 1]));
      s, stack := s + [top], stack[..|stack| - 1];
    }
    assert s + "" == s;
    r := parse(s);
  }

  // ---------------------------------------------------------------- ending outside strings

  /**
   The quotes that open or close a string although a backslash stands before them, so
   that the count above leaves them out. In a JSON text they are the closing quotes of
   strings that end in an escaped backslash.
   */
  function Missed(x: Scan, esc: bool, s: string): nat
    decreases |s|
  {
    if s == "" then 0
    else (if s[0] == '"' && esc && x.quote != Escaped then 1 else 0) + Missed(Step(x, s[0]), s[0] == '\\', s[1..])
  }

  /** The count is odd exactly when a string is open, but for the quotes it misses. */
  lemma {:induction false} CountParity(x: Scan, esc: bool, s: string)
    requires x.quote == Escaped ==> esc
    ensures (CountQuotes(esc, s) + Missed(x, esc, s)) % 2 == 1
       <==> (Run(x, s).quote == Out) != (x.quote == Out)
    decreases |s|
  {
    if s != "" {
      CountParity(Step(x, s[0]), s[0] == '\\', s[1..]);
    }
  }

  lemma {:induction false} RunConcat(x: Scan, a: string, b: string)
    ensures Run(x, a + b) == Run(Run(x, a), b)
    decreases |a|
  {
    if a == "" {
      assert a + b == b;
    } else {
      assert (a + b)[1..] == a[1..] + b;
      RunConcat(Step(x, a[0]), a[1..], b);
    }
  }

  /** A stack of closers, and only that. */
  predicate Closers(s: string) {
    forall i :: 0 <= i < |s| ==> s[i] == '}' || s[i] == ']'
  }

  lemma {:induction false} StackClosers(x: Scan, s: string)
    requires Closers(x.stack)
    ensures Closers(Run(x, s).stack)
    decreases |s|
  {
    if s != "" { StackClosers(Step(x, s[0]), s[1..]); }
  }

  lemma {:induction false} ClosersRun(x: Scan, tail: string)
    requires Closers(tail)
    ensures x.quote == Out <==> Run(x, tail).quote == Out
    ensures x.quote == Out && tail == x.stack ==> Run(x, tail) == Scan(Out, "")
    decreases |tail|
  {
    if tail != "" { ClosersRun(Step(x, tail[0]), tail[1..]); }
  }

  /**
   For every text, the repaired text ends outside string literals exactly when the
   count misses an even number of quotes and the text does not break off right
   after an unescaped backslash.
   */
  lemma RepairClosesStrings(raw: string)
    ensures Run(START, Repair(raw)).quote == Out
       <==> Missed(START, false, raw) % 2 == 0 && Run(START, raw).quote != Escaped
  {
    var closed := CloseString(raw);
    CountParity(START, false, raw);
    RunConcat(START, raw, "\"");
    StackClosers(START, closed);
    RunConcat(START, closed, Run(START, closed).stack);
    ClosersRun(Run(START, closed), Run(START, closed).stack);
  }

  lemma {:induction false} NoBackslash(x: Scan, s: string)
    requires x.quote != Escaped && '\\' !in s
    ensures Missed(x, false, s) == 0 && Run(x, s).quote != Escaped
    decreases |s|
  {
    if s != "" {
      assert s[0] in s && forall c :: c in s[1..] ==> c in s;
      NoBackslash(Step(x, s[0]), s[1..]);
    }
  }

  /** The repair fails on a complete string that ends in an escaped backslash. */
  lemma RepairMissesEscapedBackslash()
    ensures var raw := "[\"\\\\\"";
            Run(START, raw).quote == Out && Repair(raw) == raw + "\"]" && Run(START, Repair(raw)).quote == In
  {
    var raw := "[\"\\\\\"";
    var t1, t2, t3, t4 := raw[1..], raw[1..][1..], raw[1..][1..][1..], raw[1..][1..][1..][1..];
    assert t1 == "\"\\\\\"" && t2 == "\\\\\"" && t3 == "\\\"" && t4 == "\"" && t4[1..] == "";
    assert CountQuotes(true, t4) == 0 && CountQuotes(true, t3) == 0;
    assert CountQuotes(false, t2) == 0 && CountQuotes(false, t1) == 1;
    assert CountQuotes(false, raw) == 1;
    assert Run(Scan(Escaped, "]"), t3) == Run(Scan(In, "]"), t4) == Scan(Out, "]");
    assert Run(START, raw) == Run(Scan(Out, "]"), t1) == Run(Scan(In, "]"), t2) == Scan(Out, "]");
    RunConcat(START, raw, "\"");
    assert "\""[1..] == "";
    RunConcat(START, raw + "\"", "]");
    assert "]"[1..] == "" && raw + "\"" + "]" == raw + "\"]";
  }

  /** How many brackets outside strings are open after `s`; a closing one closes any, be it of the other kind. */
  function OpenAfter(s: string): nat {
    if s == "" then 0
    else
      var before, c := OpenAfter(s[..|s| - 1]), s[|s| - 1];
      if QuoteAfter(s[..|s| - 1]) != Out then before
      else if c == '{' || c == '[' then before + 1
      else if (c == '}' || c == ']') && before > 0 then before - 1
      else before
  }

  /** For every text the scan follows its string literals, and owes as many closers as brackets are open. */
  lemma {:induction false} RunCounts(s: string)
    ensures Run(START, s).quote == QuoteAfter(s) && |Run(START, s).stack| == OpenAfter(s)
    decreases |s|
  {
    if s != "" {
      var front, last := s[..|s| - 1], s[|s| - 1];
      RunCounts(front);
      RunConcat(START, front, [last]);
      assert s == front + [last] && [last][1..] == "";
    }
  }

  /** So much the repair appends. */
  lemma RepairLength(raw: string)
    ensures |Repair(raw)| == |CloseString(raw)| + OpenAfter(CloseString(raw))
    ensures CloseString(raw) == raw || CloseString(raw) == raw + "\""
  {
    RunCounts(CloseString(raw));
  }

  // ---------------------------------------------------------------- closing in nesting order

  /** Every closing bracket outside strings closes the innermost open one. */
  predicate Nested(x: Scan, s: string)
    decreases |s|
  {
    s == "" ||
    (&& (x.quote == Out && (s[0] == '}' || s[0] == ']') ==> x.stack != "" && x.stack[0] == s[0])
     && Nested(Step(x, s[0]), s[1..]))
  }

  lemma {:induction false} NestedConcat(x: Scan, a: string, b: string)
    ensures Nested(x, a + b) <==> Nested(x, a) && Nested(Run(x, a), b)
    decreases |a|
  {
    if a == "" {
      assert a + b == b;
    } else {
      assert (a + b)[1..] == a[1..] + b;
      NestedConcat(Step(x, a[0]), a[1..], b);
    }
  }

  lemma {:induction false} ClosersNested(x: Scan)
    requires x.quote == Out && Closers(x.stack)
    ensures Nested(x, x.stack)
    decreases |x.stack|
  {
    if x.stack != "" { ClosersNested(x.(stack := x.stack[1..])); }
  }

  /** A text whose brackets nest and all are closed, outside string literals. */
  predicate WellNested(s: string) {
    Nested(START, s) && Run(START, s) == START
  }

  /**
   Any prefix of a well-nested text (or of any text whose brackets nest) is completed
   by the repair to a well-nested text, under exactly the condition above.
   */
  lemma RepairNests(raw: string, lost: string)
    requires Nested(START, raw + lost)
    ensures WellNested(Repair(raw))
       <==> Missed(START, false, raw) % 2 == 0 && Run(START, raw).quote != Escaped
  {
    NestedConcat(START, raw, lost);
    var closed := CloseString(raw);
    var x := Run(START, closed);
    RunConcat(START, raw, "\"");
    NestedConcat(START, raw, "\"");
    StackClosers(START, closed);
    RunConcat(START, closed, x.stack);
    NestedConcat(START, closed, x.stack);
    RepairClosesStrings(raw);
    ClosersRun(x, x.stack);
    if x.quote == Out { ClosersNested(x); }
  }

  // ---------------------------------------------------------------- truncated JSON

  /**
   A JSON value broken off at a place the repair can mend: after a complete value,
   inside a string value between two of its characters, or in an object or array
   before its first entry or inside (or after) the value of some entry.
   */
  datatype Cut =
    | Done(value: Value)
    | InString(body: seq<Piece>)
    | InGroup(kind: Kind, items: CutItems)

  datatype CutItems =
    | Before(pad: string)
    | Inside(key: Option<Key>, pre: string, value: Cut, post: string)
    | After(entry: Entry, rest: CutItems)

  /** `c` is `v` broken off somewhere. */
  predicate CutOf(c: Cut, v: Value)
    decreases c
  {
    match c
    case Done(w) => w == v
    case InString(body) => v.Str? && body <= v.body
    case InGroup(kind, items) => v.Group? && kind == v.kind && CutOfItems(items, v.items)
  }

  predicate CutOfItems(c: CutItems, items: Items)
    decreases c
  {
    match c
    case Before(pad) =>
      pad <= (if items.Empty? then items.pad
              else if items.entry.key.Some? then items.entry.key.value.pre
              else items.entry.pre)
    case Inside(key, pre, value, post) =>
      && !items.Empty? && key == items.entry.key && pre == items.entry.pre
      && CutOf(value, items.entry.value) && post <= items.entry.post && (value.Done? || post == "")
    case After(e, rest) =>
      items.More? && e == items.entry && !rest.Before? && CutOfItems(rest, items.rest)
  }

  /** What is left of the text. */
  function Kept(c: Cut): string {
    match c
    case Done(v) => Print(v)
    case InString(body) => "\"" + BodyText(body)
    case InGroup(kind, items) => [Open(kind)] + KeptItems(items)
  }

  function KeptItems(c: CutItems): string {
    match c
    case Before(pad) => pad
    case Inside(key, pre, value, post) => KeyText(key) + (pre + (Kept(value) + post))
    case After(e, rest) => EntryText(e) + ("," + KeptItems(rest))
  }

  /** The value the repair makes of it. */
  function Mended(c: Cut): Value {
    match c
    case Done(v) => v
    case InString(body) => Str(body)
    case InGroup(kind, items) => Group(kind, MendedItems(items))
  }

  function MendedItems(c: CutItems): Items {
    match c
    case Before(pad) => Empty(pad)
    case Inside(key, pre, value, post) => Last(Entry(key, pre, Mended(value), post))
    case After(e, rest) => More(e, MendedItems(rest))
  }

  /** What the repair has to append: an open string's quote, then the owed brackets. */
  function OwedQuote(c: Cut): string {
    match c
    case Done(v) => ""
    case InString(body) => "\""
    case InGroup(kind, items) => OwedQuoteItems(items)
  }

  function OwedQuoteItems(c: CutItems): string {
    match c
    case Before(pad) => ""
    case Inside(key, pre, value, post) => OwedQuote(value)
    case After(e, rest) => OwedQuoteItems(rest)
  }

  function OwedBrackets(c: Cut): string {
    match c
    case Done(v) => ""
    case InString(body) => ""
    case InGroup(kind, items) => OwedBracketsItems(items) + [Close(kind)]
  }

  function OwedBracketsItems(c: CutItems): string {
    match c
    case Before(pad) => ""
    case Inside(key, pre, value, post) => OwedBrackets(value)
    case After(e, rest) => OwedBracketsItems(rest)
  }

  // what is kept is a prefix of the text

  lemma Prefixed(a: string, p: string, s: string)
    requires p <= s
    ensures a + p <= a + s
  {
    assert (a + s)[..|a + p|] == a + s[..|p|];
  }

  lemma {:induction false} BodyPrefix(p: seq<Piece>, body: seq<Piece>)
    requires p <= body
    ensures BodyText(p) <= BodyText(body)
    decreases |p|
  {
    if p != [] {
      BodyPrefix(p[1..], body[1..]);
      Prefixed(PieceText(p[0]), BodyText(p[1..]), BodyText(body[1..]));
    }
  }

  lemma {:induction false} KeptIsPrefix(c: Cut, v: Value)
    requires CutOf(c, v)
    ensures Kept(c) <= Print(v)
    decreases c
  {
    match c
    case Done(w) =>
    case InString(body) =>
      BodyPrefix(body, v.body);
      assert BodyText(body) <= BodyText(v.body) + "\"";
      Prefixed("\"", BodyText(body), BodyText(v.body) + "\"");
    case InGroup(kind, items) =>
      KeptItemsPrefix(items, v.items);
      assert KeptItems(items) <= ItemsText(v.items) + [Close(kind)];
      Prefixed([Open(kind)], KeptItems(items), ItemsText(v.items) + [Close(kind)]);
  }

  lemma {:induction false} KeptItemsPrefix(c: CutItems, items: Items)
    requires CutOfItems(c, items)
    ensures KeptItems(c) <= ItemsText(items)
    decreases c
  {
    match c
    case Before(pad) =>
    case Inside(key, pre, value, post) =>
      var e := items.entry;
      KeptIsPrefix(value, e.value);
      if value.Done? {
        Prefixed(Kept(value), post, e.post);
      } else {
        assert Kept(value) + post == Kept(value);
      }
      Prefixed(pre, Kept(value) + post, Print(e.value) + e.post);
      Prefixed(KeyText(key), pre + (Kept(value) + post), e.pre + (Print(e.value) + e.post));
      assert EntryText(e) <= ItemsText(items);
    case After(e, rest) =>
      KeptItemsPrefix(rest, items.rest);
      Prefixed(",", KeptItems(rest), ItemsText(items.rest));
      Prefixed(EntryText(e), "," + KeptItems(rest), "," + ItemsText(items.rest));
  }

  // what is kept plus what is owed is the mended value

  lemma {:induction false} MendedText(c: Cut, v: Value)
    requires CutOf(c, v)
    ensures Kept(c) + (OwedQuote(c) + OwedBrackets(c)) == Print(Mended(c))
    decreases c
  {
    match c
    case Done(w) =>
    case InString(body) => assert "\"" + "" == "\"";
    case InGroup(kind, items) =>
      MendedItemsText(items, v.items);
      GlueGroup([Open(kind)], KeptItems(items), OwedQuoteItems(items), OwedBracketsItems(items), [Close(kind)]);
  }

  lemma {:induction false} MendedItemsText(c: CutItems, items: Items)
    requires CutOfItems(c, items)
    ensures KeptItems(c) + (OwedQuoteItems(c) + OwedBracketsItems(c)) == ItemsText(MendedItems(c))
    decreases c
  {
    match c
    case Before(pad) =>
    case Inside(key, pre, value, post) =>
      MendedText(value, items.entry.value);
      var owed := OwedQuote(value) + OwedBrackets(value);
      assert value.Done? ==> owed == "";
      GlueInside(KeyText(key), pre, Kept(value), post, owed);
    case After(e, rest) =>
      MendedItemsText(rest, items.rest);
      GlueAfter(EntryText(e), KeptItems(rest), OwedQuoteItems(rest) + OwedBracketsItems(rest));
  }

  lemma GlueGroup(open: string, kept: string, quote: string, brackets: string, close: string)
    ensures open + kept + (quote + (brackets + close)) == open + (kept + (quote + brackets) + close)
  {
  }

  lemma GlueInside(key: string, pre: string, kept: string, post: string, owed: string)
    requires post == "" || owed == ""
    ensures key + (pre + (kept + post)) + owed == key + (pre + ((kept + owed) + post))
  {
  }

  lemma GlueAfter(entry: string, kept: string, owed: string)
    ensures entry + ("," + kept) + owed == entry + ("," + (kept + owed))
  {
  }

  lemma {:induction false} MendedOk(c: Cut, v: Value)
    requires CutOf(c, v) && Ok(v)
    ensures Ok(Mended(c))
    decreases c
  {
    match c
    case Done(w) =>
    case InString(body) =>
    case InGroup(kind, items) => MendedItemsOk(items, kind, v.items);
  }

  lemma {:induction false} MendedItemsOk(c: CutItems, kind: Kind, items: Items)
    requires CutOfItems(c, items) && ItemsOk(kind, items)
    ensures ItemsOk(kind, MendedItems(c))
    ensures !c.Before? ==> !MendedItems(c).Empty?
    decreases c
  {
    match c
    case Before(pad) =>
    case Inside(key, pre, value, post) => MendedOk(value, items.entry.value);
    case After(e, rest) => MendedItemsOk(rest, kind, items.rest);
  }

  // the scanner over JSON texts

  lemma {:induction false} InertRun(stack: string, s: string)
    requires Inert(s)
    ensures Run(Scan(Out, stack), s) == Scan(Out, stack)
    decreases |s|
  {
    if s != "" { InertRun(stack, s[1..]); }
  }

  lemma {:induction false} BodyRun(stack: string, body: seq<Piece>)
    requires BodyOk(body)
    ensures Run(Scan(In, stack), BodyText(body)) == Scan(In, stack)
    decreases |body|
  {
    if body != [] {
      PieceRun(stack, body[0]);
      RunConcat(Scan(In, stack), PieceText(body[0]), BodyText(body[1..]));
      BodyRun(stack, body[1..]);
    }
  }

  lemma PieceRun(stack: string, p: Piece)
    requires PieceOk(p)
    ensures Run(Scan(In, stack), PieceText(p)) == Scan(In, stack)
  {
    match p
    case Plain(c) => assert PieceText(p)[1..] == "";
    case Escape(c) => assert PieceText(p)[1..] == [c];
    case Unicode(h0, h1, h2, h3) =>
      var rest := ['u', h0, h1, h2, h3];
      assert PieceText(p)[1..] == rest && rest[1..] == [h0, h1, h2, h3];
      PlainRun(stack, rest[1..]);
  }

  lemma {:induction false} PlainRun(stack: string, s: string)
    requires forall i :: 0 <= i < |s| ==> s[i] != '"' && s[i] != '\\'
    ensures Run(Scan(In, stack), s) == Scan(In, stack)
    decreases |s|
  {
    if s != "" { PlainRun(stack, s[1..]); }
  }

  lemma StrRun(stack: string, body: seq<Piece>)
    requires BodyOk(body)
    ensures Run(Scan(Out, stack), StrText(body)) == Scan(Out, stack)
    ensures Run(Scan(Out, stack), "\"" + BodyText(body)) == Scan(In, stack)
  {
    BodyRun(stack, body);
    RunConcat(Scan(In, stack), BodyText(body), "\"");
    assert StrText(body)[1..] == BodyText(body) + "\"";
    assert ("\"" + BodyText(body))[1..] == BodyText(body);
  }

  lemma {:induction false} ValueRun(stack: string, v: Value)
    requires Ok(v)
    ensures Run(Scan(Out, stack), Print(v)) == Scan(Out, stack)
    decreases v
  {
    match v
    case Scalar(s) => ScalarInert(s); InertRun(stack, ScalarText(s));
    case Str(body) => StrRun(stack, body);
    case Group(kind, items) =>
      var inner := [Close(kind)] + stack;
      ItemsRun(inner, kind, items);
      RunConcat(Scan(Out, inner), ItemsText(items), [Close(kind)]);
      assert Print(v)[1..] == ItemsText(items) + [Close(kind)] && inner[1..] == stack;
  }

  lemma {:induction false} ItemsRun(stack: string, kind: Kind, items: Items)
    requires ItemsOk(kind, items)
    ensures Run(Scan(Out, stack), ItemsText(items)) == Scan(Out, stack)
    decreases items
  {
    match items
    case Empty(pad) => InertRun(stack, pad);
    case Last(e) => EntryRun(stack, kind, e);
    case More(e, rest) =>
      EntryRun(stack, kind, e);
      ItemsRun(stack, kind, rest);
      RunConcat(Scan(Out, stack), EntryText(e), "," + ItemsText(rest));
      assert ("," + ItemsText(rest))[1..] == ItemsText(rest);
  }

  lemma {:induction false} EntryRun(stack: string, kind: Kind, e: Entry)
    requires EntryOk(kind, e)
    ensures Run(Scan(Out, stack), EntryText(e)) == Scan(Out, stack)
    decreases e
  {
    KeyRun(stack, e.key);
    InertRun(stack, e.pre);
    ValueRun(stack, e.value);
    InertRun(stack, e.post);
    RunConcat(Scan(Out, stack), KeyText(e.key), e.pre + (Print(e.value) + e.post));
    RunConcat(Scan(Out, stack), e.pre, Print(e.value) + e.post);
    RunConcat(Scan(Out, stack), Print(e.value), e.post);
  }

  lemma KeyRun(stack: string, key: Option<Key>)
    requires key.Some? ==> KeyOk(key.value)
    ensures Run(Scan(Out, stack), KeyText(key)) == Scan(Out, stack)
  {
    match key
    case None =>
    case Some(Key(pre, name, post)) =>
      InertRun(stack, pre);
      StrRun(stack, name);
      InertRun(stack, post + ":");
      RunConcat(Scan(Out, stack), pre, StrText(name) + (post + ":"));
      RunConcat(Scan(Out, stack), StrText(name), post + ":");
  }

  /** A key and the blanks after it leave the scanner where it was. */
  lemma LeadRun(stack: string, key: Option<Key>, pre: string, rest: string)
    requires (key.Some? ==> KeyOk(key.value)) && Spaces(pre)
    ensures Run(Scan(Out, stack), KeyText(key) + (pre + rest)) == Run(Scan(Out, stack), rest)
  {
    KeyRun(stack, key);
    InertRun(stack, pre);
    RunConcat(Scan(Out, stack), KeyText(key), pre + rest);
    RunConcat(Scan(Out, stack), pre, rest);
  }

  lemma {:induction false} CutRun(stack: string, c: Cut, v: Value)
    requires CutOf(c, v) && Ok(v)
    ensures Run(Scan(Out, stack), Kept(c))
         == Scan(if OwedQuote(c) == "" then Out else In, OwedBrackets(c) + stack)
    decreases c
  {
    match c
    case Done(w) => ValueRun(stack, v); assert "" + stack == stack;
    case InString(body) => StrRun(stack, body); assert "" + stack == stack;
    case InGroup(kind, items) =>
      CutItemsRun([Close(kind)] + stack, kind, items, v.items);
      assert Kept(c)[1..] == KeptItems(items);
      ConcatAssoc(OwedBracketsItems(items), [Close(kind)], stack);
  }

  lemma {:induction false} CutItemsRun(stack: string, kind: Kind, c: CutItems, items: Items)
    requires CutOfItems(c, items) && ItemsOk(kind, items)
    ensures Run(Scan(Out, stack), KeptItems(c))
         == Scan(if OwedQuoteItems(c) == "" then Out else In, OwedBracketsItems(c) + stack)
    decreases c
  {
    var x := Scan(Out, stack);
    match c
    case Before(pad) => InertRun(stack, pad); assert "" + stack == stack;
    case Inside(key, pre, value, post) =>
      CutRun(stack, value, items.entry.value);
      if value.Done? { InertRun(OwedBrackets(value) + stack, post); }
      RunConcat(x, Kept(value), post);
      LeadRun(stack, key, pre, Kept(value) + post);
    case After(e, rest) =>
      EntryRun(stack, kind, e);
      CutItemsRun(stack, kind, rest, items.rest);
      RunConcat(x, EntryText(e), "," + KeptItems(rest));
      assert ("," + KeptItems(rest))[1..] == KeptItems(rest);
  }

  /** A JSON text leaves the scan outside strings with every bracket closed. */
  lemma JsonRun(text: string)
    requires IsJson(text)
    ensures Run(START, text) == START
  {
    var pre, v, post :| Spaces(pre) && Ok(v) && Spaces(post) && text == pre + (Print(v) + post);
    SpacesInert(pre);
    SpacesInert(post);
    RunConcat(START, pre, Print(v) + post);
    RunConcat(START, Print(v), post);
    InertRun("", pre);
    ValueRun("", v);
    InertRun("", post);
  }

  /** What is left of a JSON text: its leading blanks, the cut value, and blanks once the value is complete. */
  function Left(pre: string, c: Cut, post: string): string {
    pre + (Kept(c) + post)
  }

  predicate LeftOf(pre: string, c: Cut, post: string, v: Value) {
    CutOf(c, v) && Ok(v) && Spaces(pre) && Spaces(post) && (c.Done? || post == "")
  }

  lemma LeftRun(pre: string, c: Cut, post: string, v: Value)
    requires LeftOf(pre, c, post, v)
    ensures Run(START, Left(pre, c, post)) == Scan(if OwedQuote(c) == "" then Out else In, OwedBrackets(c))
  {
    SpacesInert(pre);
    InertRun("", pre);
    CutRun("", c, v);
    assert OwedBrackets(c) + "" == OwedBrackets(c);
    if c.Done? {
      SpacesInert(post);
      InertRun("", post);
    }
    RunConcat(START, pre, Kept(c) + post);
    RunConcat(START, Kept(c), post);
  }

  /** Closing puts the owed quote, and no more, where the count misses an even number. */
  lemma CloseForm(raw: string, quote: string, stack: string)
    requires quote == "" || quote == "\""
    requires Run(START, raw) == Scan(if quote == "" then Out else In, stack) && Missed(START, false, raw) % 2 == 0
    ensures CloseString(raw) == raw + quote && Run(START, CloseString(raw)).stack == stack
  {
    CountParity(START, false, raw);
    if quote != "" {
      RunConcat(START, raw, quote);
      assert quote[1..] == "";
    }
  }

  lemma EvenMends(pre: string, c: Cut, post: string, v: Value)
    requires LeftOf(pre, c, post, v) && Missed(START, false, Left(pre, c, post)) % 2 == 0
    ensures Repair(Left(pre, c, post)) == pre + (Print(Mended(c)) + post)
    ensures IsJson(Repair(Left(pre, c, post)))
  {
    var raw, owed := Left(pre, c, post), OwedQuote(c) + OwedBrackets(c);
    LeftRun(pre, c, post, v);
    OwedQuoteForm(c);
    CloseForm(raw, OwedQuote(c), OwedBrackets(c));
    MendedText(c, v);
    MendedOk(c, v);
    assert c.Done? ==> owed == "";
    GlueLeft(pre, Kept(c), post, owed);
    ConcatAssoc(raw, OwedQuote(c), OwedBrackets(c));
  }

  lemma GlueLeft(pre: string, kept: string, post: string, owed: string)
    requires post == "" || owed == ""
    ensures pre + (kept + post) + owed == pre + ((kept + owed) + post)
  {
  }

  /**
   A JSON text broken off at such a place is repaired to JSON exactly when the quote count
   misses an even number (always so without backslashes); the text then becomes that of
   the mended value.
   */
  lemma RepairMends(pre: string, c: Cut, post: string, v: Value, after: string)
    requires LeftOf(pre, c, post, v) && post <= after
    ensures Left(pre, c, post) <= pre + (Print(v) + after)
    ensures IsJson(Repair(Left(pre, c, post))) <==> Missed(START, false, Left(pre, c, post)) % 2 == 0
    ensures Missed(START, false, Left(pre, c, post)) % 2 == 0 ==>
              Repair(Left(pre, c, post)) == pre + (Print(Mended(c)) + post)
  {
    var raw := Left(pre, c, post);
    KeptIsPrefix(c, v);
    if c.Done? { Prefixed(Print(v), post, after); } else { assert Kept(c) + post == Kept(c); }
    Prefixed(pre, Kept(c) + post, Print(v) + after);
    if Missed(START, false, raw) % 2 == 0 {
      EvenMends(pre, c, post, v);
    } else {
      RepairClosesStrings(raw);
      if IsJson(Repair(raw)) { JsonRun(Repair(raw)); }
    }
  }

  // ---------------------------------------------------------------- every mendable text

  /** What a repair appends: a quote or none, then closing brackets. */
  predicate Owed(rest: string) {
    forall k :: 0 <= k < |rest| ==> rest[k] == '}' || rest[k] == ']' || (k == 0 && rest[k] == '"')
  }

  /** Where what follows `p` lies within the second of two texts. */
  lemma SplitLater(a: string, b: string, p: string, rest: string) returns (q: string)
    requires a + b == p + rest && |rest| <= |b|
    ensures p == a + q && b == q + rest
  {
    q := p[|a|..];
    assert p == (p + rest)[..|p|] == (a + b)[..|p|];
    assert b == (a + b)[|a|..] == (p + rest)[|a|..] == q + rest;
  }

  lemma OwedAt(all: string, p: string, rest: string, k: nat)
    requires all == p + rest && Owed(rest) && |p| <= k < |all|
    ensures all[k] == '}' || all[k] == ']' || all[k] == '"'
  {
    assert all[k] == rest[k - |p|];
  }

  lemma OwedPart(all: string, p: string, rest: string)
    requires all == p + rest && Owed(rest)
    ensures forall k :: |p| <= k < |all| ==> all[k] == '}' || all[k] == ']' || (k == |p| && all[k] == '"')
  {
    assert forall k :: |p| <= k < |all| ==> all[k] == rest[k - |p|];
  }

  /** A comma ends what can be appended. */
  lemma AfterComma(a: string, b: string, p: string, rest: string)
    requires a + "," + b == p + rest && Owed(rest)
    ensures |rest| <= |b|
  {
    assert (a + "," + b)[|a|] == ',';
    OwedPart(a + "," + b, p, rest);
  }

  lemma FirstChar(v: Value)
    requires Ok(v)
    ensures Print(v) != "" && Print(v)[0] != '}' && Print(v)[0] != ']'
  {
    if v.Scalar? { ScalarInert(v.scalar); }
  }

  /** What is appended to a text lies within its last value. */
  lemma SplitValue(lead: string, v: Value, post: string, p: string, rest: string) returns (q: string)
    requires Ok(v) && Spaces(post) && lead + Print(v) + post == p + rest && Owed(rest) && rest != ""
    ensures post == "" && p == lead + q && Print(v) == q + rest
  {
    var all := lead + Print(v) + post;
    OwedPart(all, p, rest);
    assert post == "" by {
      var from := |lead + Print(v)|;
      assert forall k :: from <= k < |all| ==> all[k] == post[k - from];
      assert all[|all| - 1] == '}' || all[|all| - 1] == ']' || all[|all| - 1] == '"';
    }
    assert lead + Print(v) + "" == lead + Print(v);
    FirstChar(v);
    assert all[|lead|] == Print(v)[0];
    q := SplitLater(lead, Print(v), p, rest);
  }

  /** A value whose text ends in what a repair appends is cut where that begins. */
  lemma {:induction false} CutAt(v: Value, p: string, rest: string) returns (c: Cut)
    requires Ok(v) && Print(v) == p + rest && Owed(rest)
    ensures CutOf(c, v) && Kept(c) == p
    decreases v
  {
    c := Done(v);
    if rest == "" {
      assert p + "" == p;
    } else {
      var text := Print(v);
      assert text[|text| - 1] == rest[|rest| - 1];
      match v
      case Scalar(s) =>
        ScalarInert(s);
      case Str(body) =>
        assert |rest| == 1;
        assert p == text[..|text| - 1] == "\"" + BodyText(body);
        c := InString(body);
      case Group(kind, items) =>
        var inside := InsideGroup(kind, ItemsText(items), p, rest);
        var inner := CutItemsAt(kind, items, inside, rest[..|rest| - 1]);
        c := InGroup(kind, inner);
    }
  }

  lemma InsideGroup(kind: Kind, text: string, p: string, rest: string) returns (q: string)
    requires [Open(kind)] + (text + [Close(kind)]) == p + rest && Owed(rest) && rest != ""
    ensures p == [Open(kind)] + q && text == q + rest[..|rest| - 1] && Owed(rest[..|rest| - 1])
  {
    var all, front := [Open(kind)] + (text + [Close(kind)]), rest[..|rest| - 1];
    assert p + front == all[..|all| - 1] == [Open(kind)] + text;
    OwedPart(all, p, rest);
    assert all[0] == Open(kind);
    assert |front| <= |text|;
    q := SplitLater([Open(kind)], text, p, front);
  }

  lemma {:induction false} CutItemsAt(kind: Kind, items: Items, p: string, rest: string) returns (c: CutItems)
    requires ItemsOk(kind, items) && ItemsText(items) == p + rest && Owed(rest)
    ensures CutOfItems(c, items) && KeptItems(c) == p && (!items.Empty? ==> !c.Before?)
    decreases items
  {
    match items
    case Empty(pad) =>
      BlankNotOwed(pad, p, rest);
      c := Before(pad);
    case Last(e) =>
      if rest == "" {
        assert p + rest == p;
        c := Inside(e.key, e.pre, Done(e.value), e.post);
      } else {
        var q := EntrySplit(KeyText(e.key), e.pre, e.value, e.post, p, rest);
        var inner := CutAt(e.value, q, rest);
        c := Inside(e.key, e.pre, inner, "");
      }
    case More(e, more) =>
      var q := MoreSplit(EntryText(e), ItemsText(more), p, rest);
      var inner := CutItemsAt(kind, more, q, rest);
      c := After(e, inner);
  }

  lemma EntrySplit(key: string, pre: string, v: Value, post: string, p: string, rest: string) returns (q: string)
    requires Ok(v) && Spaces(post) && key + (pre + (Print(v) + post)) == p + rest && Owed(rest) && rest != ""
    ensures post == "" && p == key + (pre + (q + "")) && Print(v) == q + rest
  {
    Unnest(key, pre, Print(v), post);
    q := SplitValue(key + pre, v, post, p, rest);
    Unnest(key, pre, q, "");
    assert key + pre + q + "" == key + pre + q;
  }

  lemma Unnest(a: string, b: string, c: string, d: string)
    ensures a + (b + (c + d)) == a + b + c + d
  {
  }

  lemma BlankNotOwed(pad: string, p: string, rest: string)
    requires Spaces(pad) && pad == p + rest && Owed(rest)
    ensures pad == p
  {
    assert pad[..|p|] == p;
    if |p| < |pad| {
      OwedAt(pad, p, rest, |p|);
      assert false;
    }
  }

  lemma MoreSplit(entry: string, more: string, p: string, rest: string) returns (q: string)
    requires entry + ("," + more) == p + rest && Owed(rest)
    ensures p == entry + ("," + q) && more == q + rest
  {
    assert entry + "," + more == entry + ("," + more);
    AfterComma(entry, more, p, rest);
    q := SplitLater(entry + ",", more, p, rest);
    assert entry + ("," + q) == entry + "," + q;
  }

  /** What is left of some JSON text broken off at one of the places above. */
  ghost predicate Mendable(raw: string) {
    exists pre, c, post, v :: LeftOf(pre, c, post, v) && raw == Left(pre, c, post)
  }

  lemma RepairAppends(raw: string) returns (rest: string)
    ensures Repair(raw) == raw + rest && Owed(rest)
  {
    var closed := CloseString(raw);
    var stack := Run(START, closed).stack;
    StackClosers(START, closed);
    rest := (if closed == raw then "" else "\"") + stack;
    assert closed == raw + (if closed == raw then "" else "\"");
  }

  /**
   For every text, JSON or not: its repair is JSON exactly when the text is what is left of
   a JSON text broken off at one of those places, and the quote count misses an even number.
   So these places are all that the repair can mend.
   */
  lemma RepairsIff(raw: string)
    ensures IsJson(Repair(raw)) <==> Mendable(raw) && Missed(START, false, raw) % 2 == 0
  {
    if Mendable(raw) && Missed(START, false, raw) % 2 == 0 {
      var pre, c, post, v :| LeftOf(pre, c, post, v) && raw == Left(pre, c, post);
      EvenMends(pre, c, post, v);
    }
    if IsJson(Repair(raw)) {
      JsonRun(Repair(raw));
      RepairClosesStrings(raw);
      var rest := RepairAppends(raw);
      var pre, v, post :| Spaces(pre) && Ok(v) && Spaces(post) && Repair(raw) == pre + (Print(v) + post);
      LeftFrom(raw, pre, v, post, rest);
    }
  }

  lemma LeftFrom(raw: string, pre: string, v: Value, post: string, rest: string)
    requires Spaces(pre) && Ok(v) && Spaces(post) && pre + (Print(v) + post) == raw + rest && Owed(rest)
    ensures Mendable(raw)
  {
    if rest == "" {
      assert raw + "" == raw;
      assert LeftOf(pre, Done(v), post, v) && raw == Left(pre, Done(v), post);
    } else {
      assert pre + Print(v) + post == pre + (Print(v) + post);
      var q := SplitValue(pre, v, post, raw, rest);
      var c := CutAt(v, q, rest);
      assert q + "" == q;
      assert LeftOf(pre, c, "", v) && raw == Left(pre, c, "");
    }
  }

  lemma {:induction false} OwedQuoteForm(c: Cut)
    ensures OwedQuote(c) == "" || OwedQuote(c) == "\""
    decreases c
  {
    if c.InGroup? { OwedQuoteItemsForm(c.items); }
  }

  lemma {:induction false} OwedQuoteItemsForm(c: CutItems)
    ensures OwedQuoteItems(c) == "" || OwedQuoteItems(c) == "\""
    decreases c
  {
    match c
    case Before(pad) =>
    case Inside(key, pre, value, post) => OwedQuoteForm(value);
    case After(e, rest) => OwedQuoteItemsForm(rest);
  }

  /**
   Given a `JSON.parse` that accepts every JSON text, a truncated tool-call argument
   broken off at such a place is never dropped while the count misses an even number of
   quotes: it is parsed as it stands or as the mended value.
   */
  lemma TruncatedInputSurvives<V(!new)>(pre: string, c: Cut, post: string, v: Value,
                                        parse: string -> Option<V>, empty: V)
    requires forall s :: IsJson(s) ==> parse(s).Some?
    requires LeftOf(pre, c, post, v) && Missed(START, false, Left(pre, c, post)) % 2 == 0
    ensures Parsed(Some(Left(pre, c, post)), parse, empty).Some?
    ensures parse(Left(pre, c, post)).None? && Trim(Left(pre, c, post)) != ""
        ==> Parsed(Some(Left(pre, c, post)), parse, empty) == parse(pre + (Print(Mended(c)) + post))
  {
    EvenMends(pre, c, post, v);
  }

  lemma TrimsToNothing(s: string)
    ensures Trim(s) == "" <==> Blank(s)
  {
    if Trim(s) == "" {
      var lead, trail := TrimParts(s);
      assert s == lead + trail;
    } else if Blank(s) {
      BlankTrims(s);
    }
  }

  /**
   What becomes of the arguments of a tool call. None or blank ones are the empty input; a text
   that parses is taken as it is parsed, whatever a repair would make of it; any other is
   repaired and parsed once more.
   */
  lemma ParsedMeaning<V>(raw: Option<string>, parse: string -> Option<V>, empty: V)
    ensures raw.None? || Blank(raw.value) ==> Parsed(raw, parse, empty) == Some(empty)
    ensures raw.Some? && !Blank(raw.value) && parse(raw.value).Some? ==>
              Parsed(raw, parse, empty) == parse(raw.value)
    ensures raw.Some? && !Blank(raw.value) && parse(raw.value).None? ==>
              Parsed(raw, parse, empty) == parse(Repair(raw.value))
  {
    if raw.Some? { TrimsToNothing(raw.value); }
  }

  /**
   For every text, with a `JSON.parse` that accepts exactly the JSON texts: the arguments are
   not dropped if and only if they are blank, JSON, or the rest of a JSON text broken off where
   the repair can mend it, with an even number of quotes missed by the count.
   */
  lemma SurvivesIff<V(!new)>(raw: string, parse: string -> Option<V>, empty: V)
    requires forall s :: parse(s).Some? <==> IsJson(s)
    ensures Parsed(Some(raw), parse, empty).Some?
       <==> Blank(raw) || IsJson(raw) || (Mendable(raw) && Missed(START, false, raw) % 2 == 0)
  {
    ParsedMeaning(Some(raw), parse, empty);
    RepairsIff(raw);
  }
}
