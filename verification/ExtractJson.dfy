/**
 `extractJson` (packages/forge-local-model/src/parse.ts:10-45): cut the first
 balanced `{...}` or `[...]` out of a noisy model answer, counting one kind of
 bracket only and skipping string literals.
 */
module ExtractJson {
  import opened Text
  import opened Json

  // ---------------------------------------------------------------- the scan

  /** The scanner: stopped at the closing bracket, or under way at some depth. */
  datatype Walk = Stop | At(depth: int, quote: Quote)

  function Step(k: Kind, w: Walk, c: char): Walk
    requires w.At?
  {
    if w.quote != Out || c == '"' then At(w.depth, NextQuote(w.quote, c))
    else if c == Open(k) then At(w.depth + 1, Out)
    else if c == Close(k) then (if w.depth == 1 then Stop else At(w.depth - 1, Out))
    else w
  }

  function Run(k: Kind, w: Walk, s: string): Walk
    decreases |s|
  {
    if w.Stop? || s == "" then w else Run(k, Step(k, w, s[0]), s[1..])
  }

  /** How many characters are read up to and including the one that stops the scan. */
  function Span(k: Kind, w: Walk, s: string): (n: Option<nat>)
    requires w.At?
    ensures n.Some? ==> 1 <= n.value <= |s|
    decreases |s|
  {
    if s == "" then None
    else if Step(k, w, s[0]).Stop? then Some(1)
    else
      match Span(k, Step(k, w, s[0]), s[1..])
      case None => None
      case Some(n) => Some(n + 1)
  }

  function FirstBracket(s: string): (i: Option<nat>)
    ensures i.Some? ==> i.value < |s| && (s[i.value] == '{' || s[i.value] == '[')
  {
    if s == "" then None
    else if s[0] == '{' || s[0] == '[' then Some(0)
    else
      match FirstBracket(s[1..])
      case None => None
      case Some(i) => Some(i + 1)
  }

  function KindOf(c: char): Kind { if c == '{' then Object else Array }

  /** The span handed to `JSON.parse`. */
  function Cut(candidate: string): Option<string> {
    match FirstBracket(candidate)
    case None => None
    case Some(start) => CutGroup(KindOf(candidate[start]), candidate[start..])
  }

  function CutGroup(k: Kind, rest: string): Option<string> {
    match Span(k, At(0, Out), rest) case None => None case Some(n) => Some(rest[..n])
  }

  // ---------------------------------------------------------------- the fence

  function FindFence(s: string): (i: Option<nat>)
    ensures i.Some? ==> i.value + 3 <= |s|
  {
    if |s| < 3 then None
    else if s[0] == '`' && s[1] == '`' && s[2] == '`' then Some(0)
    else
      match FindFence(s[1..])
      case None => None
      case Some(i) => Some(i + 1)
  }

  function Lower(c: char): char {
    if 'A' <= c <= 'Z' then c - 'A' + 'a' else c
  }

  predicate TagFirst(s: string) {
    |s| >= 4 && Lower(s[0]) == 'j' && Lower(s[1]) == 's' && Lower(s[2]) == 'o' && Lower(s[3]) == 'n'
  }

  /** Capture group 1 of the fence pattern: what stands between the first two fences. */
  function FenceBody(text: string): Option<string> {
    match FindFence(text)
    case None => None
    case Some(i) =>
      match FindFence(text[i + 3..])
      case None => None
      case Some(j) =>
        var inside := text[i + 3..][..j];
        Some(TrimStart(if TagFirst(inside) then inside[4..] else inside))
  }

  function Candidate(text: string): string {
    match FenceBody(text) case None => text case Some(body) => body
  }

  /** The whole function, over the outcome of `JSON.parse`. */
  function Extracted<V>(text: string, parse: string -> Option<V>): Option<V> {
    match Cut(Candidate(text)) case None => None case Some(span) => parse(span)
  }

  /** The end of the span, counted from the start of `s`, when the scan has reached `i`. */
  ghost function SpanFrom(k: Kind, w: Walk, s: string, i: nat): Option<nat>
    requires w.At? && i <= |s|
    decreases |s| - i
  {
    if i == |s| then None
    else if Step(k, w, s[i]).Stop? then Some(i + 1)
    else SpanFrom(k, Step(k, w, s[i]), s, i + 1)
  }

  lemma {:induction false} SpanFromIsSpan(k: Kind, w: Walk, s: string, i: nat)
    requires w.At? && i <= |s|
    ensures SpanFrom(k, w, s, i) == Shift(i, Span(k, w, s[i..]))
    decreases |s| - i
  {
    if i < |s| {
      assert s[i..][1..] == s[i + 1..];
      if !Step(k, w, s[i]).Stop? { SpanFromIsSpan(k, Step(k, w, s[i]), s, i + 1); }
    }
  }

  function Shift(i: nat, n: Option<nat>): Option<nat> {
    match n case None => None case Some(v) => Some(i + v)
  }

  /** The loop over the candidate: where the span that begins at `start` ends. */
  method FindEnd(candidate: string, start: nat, open: char) returns (end: Option<nat>)
    requires start <= |candidate| && (open == '{' || open == '[')
    ensures end == SpanFrom(KindOf(open), At(0, Out), candidate, start)
  {
    var close := if open == '{' then '}' else ']';
    var depth, inStr, esc := 0, false, false;
    ghost var k := KindOf(open);
    var i := start;
    while i < |candidate|
      invariant start <= i <= |candidate|
      invariant esc ==> inStr
      invariant SpanFrom(k, At(depth, if esc then Escaped else if inStr then In else Out), candidate, i)
             == SpanFrom(k, At(0, Out), candidate, start)
    {
      var ch := candidate[i];
      if inStr {
        if esc { esc := false; }
        else if ch == '\\' { esc := true; }
        else if ch == '"' { inStr := false; }
      } else if ch == '"' {
        inStr := true;
      } else if ch == open {
        depth := depth + 1;
      } else if ch == close {
        depth := depth - 1;
        if depth == 0 { return Some(i + 1); }
      }
      i := i + 1;
    }
    return None;
  }

  method ExtractJson<V>(text: string, parse: string -> Option<V>) returns (r: Option<V>)
    ensures r == Extracted(text, parse)
  {
    if text == "" { return None; }
    var candidate := Candidate(text);
    var found := FirstBracket(candidate);
    if found.None? { return None; }
    var start := found.value;
    var end := FindEnd(candidate, start, candidate[start]);
    SpanFromIsSpan(KindOf(candidate[start]), At(0, Out), candidate, start);
    if end.None? { return None; }
    assert candidate[start..end.value] == candidate[start..][..end.value - start];
    r := parse(candidate[start..end.value]);
  }

  // ---------------------------------------------------------------- JSON text is one span

  lemma {:induction false} RunConcat(k: Kind, w: Walk, a: string, b: string)
    ensures Run(k, w, a + b) == Run(k, Run(k, w, a), b)
    decreases |a|
  {
    if a == "" {
      assert a + b == b;
    } else if w.At? {
      assert (a + b)[1..] == a[1..] + b;
      RunConcat(k, Step(k, w, a[0]), a[1..], b);
    }
  }

  lemma {:induction false} SpanConcat(k: Kind, w: Walk, a: string, b: string)
    requires w.At? && Run(k, w, a).At?
    ensures Span(k, w, a + b) == Shift(|a|, Span(k, Run(k, w, a), b))
    decreases |a|
  {
    if a == "" {
      assert a + b == b;
    } else {
      assert (a + b)[1..] == a[1..] + b;
      SpanConcat(k, Step(k, w, a[0]), a[1..], b);
    }
  }

  lemma {:induction false} InertRun(k: Kind, d: int, s: string)
    requires Inert(s)
    ensures Run(k, At(d, Out), s) == At(d, Out)
    decreases |s|
  {
    if s != "" { InertRun(k, d, s[1..]); }
  }

  lemma {:induction false} BodyRun(k: Kind, d: int, body: seq<Piece>)
    requires BodyOk(body)
    ensures Run(k, At(d, In), BodyText(body)) == At(d, In)
    decreases |body|
  {
    if body != [] {
      PieceRun(k, d, body[0]);
      RunConcat(k, At(d, In), PieceText(body[0]), BodyText(body[1..]));
      BodyRun(k, d, body[1..]);
    }
  }

  lemma PieceRun(k: Kind, d: int, p: Piece)
    requires PieceOk(p)
    ensures Run(k, At(d, In), PieceText(p)) == At(d, In)
  {
    match p
    case Plain(c) =>
      assert PieceText(p)[1..] == "";
    case Escape(c) =>
      assert PieceText(p)[1..] == [c];
    case Unicode(h0, h1, h2, h3) =>
      InStringRun(k, d, ['u', h0, h1, h2, h3]);
  }

  lemma InStringRun(k: Kind, d: int, s: string)
    requires |s| == 5 && forall i :: 0 <= i < 5 ==> s[i] != '"' && s[i] != '\\'
    ensures Run(k, At(d, In), ['\\'] + s) == At(d, In)
  {
    assert (['\\'] + s)[1..] == s;
    assert s == [s[0]] + ([s[1]] + ([s[2]] + ([s[3]] + [s[4]])));
    RunConcat(k, At(d, Escaped), [s[0]], [s[1]] + ([s[2]] + ([s[3]] + [s[4]])));
    RunConcat(k, At(d, In), [s[1]], [s[2]] + ([s[3]] + [s[4]]));
    RunConcat(k, At(d, In), [s[2]], [s[3]] + [s[4]]);
    RunConcat(k, At(d, In), [s[3]], [s[4]]);
  }

  lemma StrRun(k: Kind, d: int, body: seq<Piece>)
    requires BodyOk(body)
    ensures Run(k, At(d, Out), StrText(body)) == At(d, Out)
  {
    BodyRun(k, d, body);
    RunConcat(k, At(d, In), BodyText(body), "\"");
    assert StrText(body)[1..] == BodyText(body) + "\"";
  }

  /** Reading a whole value below the outer bracket brings the scanner back where it was. */
  lemma {:induction false} ValueRun(k: Kind, d: int, v: Value)
    requires d >= 1 && Ok(v)
    ensures Run(k, At(d, Out), Print(v)) == At(d, Out)
    decreases v
  {
    match v
    case Scalar(s) => ScalarInert(s); InertRun(k, d, ScalarText(s));
    case Str(body) => StrRun(k, d, body);
    case Group(kind, items) =>
      var inner := if kind == k then d + 1 else d;
      ItemsRun(k, inner, kind, items);
      RunConcat(k, At(inner, Out), ItemsText(items), [Close(kind)]);
      assert Print(v)[1..] == ItemsText(items) + [Close(kind)];
  }

  lemma {:induction false} ItemsRun(k: Kind, d: int, kind: Kind, items: Items)
    requires d >= 1 && ItemsOk(kind, items)
    ensures Run(k, At(d, Out), ItemsText(items)) == At(d, Out)
    decreases items
  {
    match items
    case Empty(pad) => InertRun(k, d, pad);
    case Last(e) => EntryRun(k, d, kind, e);
    case More(e, rest) =>
      EntryRun(k, d, kind, e);
      ItemsRun(k, d, kind, rest);
      RunConcat(k, At(d, Out), EntryText(e), "," + ItemsText(rest));
      assert ("," + ItemsText(rest))[1..] == ItemsText(rest);
  }

  lemma {:induction false} EntryRun(k: Kind, d: int, kind: Kind, e: Entry)
    requires d >= 1 && EntryOk(kind, e)
    ensures Run(k, At(d, Out), EntryText(e)) == At(d, Out)
    decreases e
  {
    KeyRun(k, d, e.key);
    InertRun(k, d, e.pre);
    ValueRun(k, d, e.value);
    InertRun(k, d, e.post);
    RunConcat(k, At(d, Out), KeyText(e.key), e.pre + (Print(e.value) + e.post));
    RunConcat(k, At(d, Out), e.pre, Print(e.value) + e.post);
    RunConcat(k, At(d, Out), Print(e.value), e.post);
  }

  lemma KeyRun(k: Kind, d: int, key: Option<Key>)
    requires key.Some? ==> KeyOk(key.value)
    ensures Run(k, At(d, Out), KeyText(key)) == At(d, Out)
  {
    match key
    case None =>
    case Some(Key(pre, name, post)) =>
      InertRun(k, d, pre);
      StrRun(k, d, name);
      InertRun(k, d, post + ":");
      RunConcat(k, At(d, Out), pre, StrText(name) + (post + ":"));
      RunConcat(k, At(d, Out), StrText(name), post + ":");
  }

  // ---------------------------------------------------------------- main results

  /** The scan over an object or array stops at its last character and nowhere before. */
  lemma GroupSpan(v: Value, tail: string)
    requires v.Group? && Ok(v)
    ensures Span(v.kind, At(0, Out), Print(v) + tail) == Some(|Print(v)|)
  {
    var k, inside := v.kind, ItemsText(v.items);
    var text := Print(v) + tail;
    ItemsRun(k, 1, k, v.items);
    assert text[1..] == inside + ([Close(k)] + tail);
    assert Step(k, At(0, Out), text[0]) == At(1, Out);
    SpanConcat(k, At(1, Out), inside, [Close(k)] + tail);
  }

  predicate NoBracket(s: string) {
    forall i :: 0 <= i < |s| ==> s[i] != '{' && s[i] != '['
  }

  lemma {:induction false} FirstBracketAt(noise: string, rest: string)
    requires NoBracket(noise)
    requires rest != "" && (rest[0] == '{' || rest[0] == '[')
    ensures FirstBracket(noise + rest) == Some(|noise|)
    decreases |noise|
  {
    if noise == "" {
      assert noise + rest == rest;
    } else {
      assert (noise + rest)[1..] == noise[1..] + rest;
      FirstBracketAt(noise[1..], rest);
    }
  }

  /**
   An object or array text, after any text without an opening bracket and before
   any text, is exactly what is handed to `JSON.parse`.
   */
  lemma CutsExactly(noise: string, v: Value, tail: string)
    requires NoBracket(noise) && v.Group? && Ok(v)
    ensures Cut(noise + (Print(v) + tail)) == Some(Print(v))
  {
    var rest := Print(v) + tail;
    FirstBracketAt(noise, rest);
    GroupSpan(v, tail);
    assert (noise + rest)[|noise|..] == rest;
    assert rest[..|Print(v)|] == Print(v);
  }

  predicate FenceAt(s: string, i: int) {
    0 <= i && i + 3 <= |s| && s[i] == '`' && s[i + 1] == '`' && s[i + 2] == '`'
  }

  lemma {:induction false} FindFenceFirst(s: string)
    ensures match FindFence(s)
            case None => forall i :: !FenceAt(s, i)
            case Some(n) => FenceAt(s, n) && forall i :: i < n ==> !FenceAt(s, i)
    decreases |s|
  {
    if |s| >= 3 && !FenceAt(s, 0) {
      FindFenceFirst(s[1..]);
      assert forall i :: FenceAt(s, i) ==> i > 0 && FenceAt(s[1..], i - 1);
    }
  }

  /** The fence pattern matches exactly when the text holds two fences that do not overlap. */
  lemma FencedIff(text: string)
    ensures FenceBody(text).Some?
       <==> exists i, j :: FenceAt(text, i) && FenceAt(text, j) && i + 3 <= j
  {
    FindFenceFirst(text);
    match FindFence(text)
    case None =>
    case Some(n) =>
      var after := text[n + 3..];
      FindFenceFirst(after);
      match FindFence(after)
      case Some(m) =>
        assert FenceAt(text, n) && FenceAt(text, n + 3 + m);
      case None =>
        forall i, j | FenceAt(text, i) && FenceAt(text, j) && i + 3 <= j
          ensures false
        {
          assert FenceAt(after, j - n - 3);
        }
  }

  /**
   Without two fences in it, an answer that holds one object or array text, preceded
   by no opening bracket, yields what `JSON.parse` makes of exactly that text.
   */
  lemma ExtractsUnfenced<V>(noise: string, v: Value, tail: string, parse: string -> Option<V>)
    requires NoBracket(noise) && v.Group? && Ok(v)
    requires forall i, j ::
      FenceAt(noise + (Print(v) + tail), i) && FenceAt(noise + (Print(v) + tail), j) ==> j < i + 3
    ensures Extracted(noise + (Print(v) + tail), parse) == parse(Print(v))
  {
    FencedIff(noise + (Print(v) + tail));
    CutsExactly(noise, v, tail);
  }

  predicate FirstFence(s: string, n: nat) {
    FenceAt(s, n) && forall i :: 0 <= i < n ==> !FenceAt(s, i)
  }

  lemma FindFenceAt(s: string, n: nat)
    requires FirstFence(s, n)
    ensures FindFence(s) == Some(n)
  {
    FindFenceFirst(s);
  }

  /**
   The same between fences, tagged or not: whatever stands before the first fence and
   after the second, and whatever words stand before the value.
   */
  lemma ExtractsFenced<V>(text: string, i: nat, j: nat, noise: string, v: Value, tail: string,
                          parse: string -> Option<V>)
    requires v.Group? && Ok(v) && NoBracket(noise)
    requires FirstFence(text, i) && FirstFence(text[i + 3..], j)
    requires text[i + 3..][..j] == noise + (Print(v) + tail)
    ensures Extracted(text, parse) == parse(Print(v))
  {
    FindFenceAt(text, i);
    FindFenceAt(text[i + 3..], j);
    var lead := InsideFence(noise, Print(v) + tail);
    assert Candidate(text) == lead + (Print(v) + tail);
    CutsExactly(lead, v, tail);
  }

  /** Dropping the tag and the blanks leaves the value with a shorter text before it. */
  lemma InsideFence(noise: string, core: string) returns (lead: string)
    requires NoBracket(noise) && core != "" && (core[0] == '{' || core[0] == '[')
    ensures var inside := noise + core;
            NoBracket(lead) && TrimStart(if TagFirst(inside) then inside[4..] else inside) == lead + core
  {
    var inside := noise + core;
    if TagFirst(inside) {
      assert |noise| >= 4 by {
        assert forall i :: 0 <= i < 4 ==> Lower(inside[i]) != '{' && Lower(inside[i]) != '[';
        assert inside[|noise|] == core[0];
      }
      assert inside[4..] == noise[4..] + core;
      lead := TrimStartNoise(noise[4..], core);
    } else {
      lead := TrimStartNoise(noise, core);
    }
  }

  lemma {:induction false} TrimStartNoise(noise: string, core: string) returns (lead: string)
    requires NoBracket(noise) && core != "" && !IsSpace(core[0])
    ensures NoBracket(lead) && TrimStart(noise + core) == lead + core
    decreases |noise|
  {
    lead := noise;
    if noise == "" {
      assert noise + core == core;
    } else if IsSpace(noise[0]) {
      assert (noise + core)[1..] == noise[1..] + core;
      lead := TrimStartNoise(noise[1..], core);
    }
  }

  lemma {:induction false} SpanMeaning(k: Kind, w: Walk, s: string, n: nat)
    requires w.At? && 1 <= n <= |s|
    ensures Span(k, w, s) == Some(n) <==> Run(k, w, s[..n - 1]).At? && Run(k, w, s[..n]).Stop?
    decreases n
  {
    var next := Step(k, w, s[0]);
    assert s[..n][0] == s[0] && s[..n][1..] == s[1..][..n - 1];
    if n > 1 {
      assert s[..n - 1][0] == s[0] && s[..n - 1][1..] == s[1..][..n - 2];
      if next.At? { SpanMeaning(k, next, s[1..], n - 1); }
    } else {
      assert s[1..][..0] == "";
    }
  }

  /** How many brackets of one kind are open after `s`, those within string literals left out. */
  function Balance(k: Kind, s: string): int {
    if s == "" then 0
    else Balance(k, s[..|s| - 1]) + (if QuoteAfter(s[..|s| - 1]) == Out then Weight(k, s[|s| - 1]) else 0)
  }

  function Weight(k: Kind, c: char): int {
    if c == Open(k) then 1 else if c == Close(k) then -1 else 0
  }

  /** A closing bracket outside strings, after which as many brackets of its kind were opened as closed. */
  predicate Balances(k: Kind, s: string) {
    s != "" && s[|s| - 1] == Close(k) && QuoteAfter(s[..|s| - 1]) == Out && Balance(k, s) == 0
  }

  lemma RunSnoc(k: Kind, w: Walk, s: string, c: char)
    ensures Run(k, w, s + [c]) == if Run(k, w, s).Stop? then Stop else Step(k, Run(k, w, s), c)
  {
    RunConcat(k, w, s, [c]);
    assert [c][1..] == "";
  }

  /** The scan goes on, with that balance, exactly as long as no prefix balances. */
  lemma {:induction false} RunIff(k: Kind, s: string)
    ensures Run(k, At(0, Out), s).At? <==> forall n :: 0 <= n <= |s| ==> !Balances(k, s[..n])
    ensures Run(k, At(0, Out), s).At? ==> Run(k, At(0, Out), s) == At(Balance(k, s), QuoteAfter(s))
    decreases |s|
  {
    if s != "" {
      var front, last := s[..|s| - 1], s[|s| - 1];
      RunIff(k, front);
      assert s == front + [last];
      RunSnoc(k, At(0, Out), front, last);
      assert forall n :: 0 <= n <= |front| ==> front[..n] == s[..n];
      assert s[..|s|] == s;
      if Run(k, At(0, Out), front).At? {
        StepBalances(k, s, Run(k, At(0, Out), front));
      } else {
        var n :| 0 <= n <= |front| && Balances(k, front[..n]);
        assert Balances(k, s[..n]);
      }
    }
  }

  lemma StepBalances(k: Kind, s: string, w: Walk)
    requires s != "" && w == At(Balance(k, s[..|s| - 1]), QuoteAfter(s[..|s| - 1]))
    ensures Step(k, w, s[|s| - 1]).Stop? <==> Balances(k, s)
    ensures Step(k, w, s[|s| - 1]).At? ==> Step(k, w, s[|s| - 1]) == At(Balance(k, s), QuoteAfter(s))
  {
  }

  predicate IsBracket(c: char) {
    c == '{' || c == '['
  }

  /** The first opening bracket of either kind stands at `i`. */
  predicate FirstAt(s: string, i: nat) {
    i < |s| && IsBracket(s[i]) && forall j :: 0 <= j < i ==> !IsBracket(s[j])
  }

  /**
   What is cut out, of any candidate: from the first bracket on, the shortest part that ends
   in a closing bracket of that kind outside strings with as many opened as closed.
   */
  lemma CutMeaning(candidate: string, span: string)
    ensures Cut(candidate) == Some(span) <==>
              exists start: nat :: FirstAt(candidate, start)
                && span <= candidate[start..] && Balances(KindOf(candidate[start]), span)
                && forall n :: 0 <= n < |span| ==> !Balances(KindOf(candidate[start]), span[..n])
  {
    forall start { FirstBracketIff(candidate, start); }
    var found := FirstBracket(candidate);
    if found.Some? {
      var k := KindOf(candidate[found.value]);
      GroupMeaning(k, candidate[found.value..], span);
      if span != "" { SpanBalances(k, span); }
    }
  }

  lemma SpanBalances(k: Kind, span: string)
    requires span != ""
    ensures Run(k, At(0, Out), span[..|span| - 1]).At? && Run(k, At(0, Out), span).Stop? <==>
              Balances(k, span) && forall n :: 0 <= n < |span| ==> !Balances(k, span[..n])
  {
    var front := span[..|span| - 1];
    RunIff(k, front);
    RunIff(k, span);
    assert forall n :: 0 <= n <= |front| ==> front[..n] == span[..n];
    assert span[..|span|] == span;
  }

  lemma {:induction false} FirstBracketIff(s: string, i: nat)
    ensures FirstBracket(s) == Some(i) <==> FirstAt(s, i)
    decreases |s|
  {
    if s != "" && !IsBracket(s[0]) && i > 0 {
      FirstBracketIff(s[1..], i - 1);
      assert forall j :: 0 < j < |s| ==> s[j] == s[1..][j - 1];
    }
  }

  lemma GroupMeaning(k: Kind, rest: string, span: string)
    ensures CutGroup(k, rest) == Some(span) <==>
              && span != "" && span <= rest
              && Run(k, At(0, Out), span[..|span| - 1]).At? && Run(k, At(0, Out), span).Stop?
  {
    if span != "" && span <= rest {
      SpanMeaning(k, At(0, Out), rest, |span|);
      assert rest[..|span|] == span && rest[..|span| - 1] == span[..|span| - 1];
    }
  }

  // ---------------------------------------------------------------- reranking

  /** The indexes below `n` among the first `k` values, each at its first occurrence; other values are None. */
  function Firsts(values: seq<Option<int>>, n: nat, k: nat): seq<nat>
    requires k <= |values|
  {
    if k == 0 then []
    else
      var before, v := Firsts(values, n, k - 1), values[k - 1];
      if v.Some? && 0 <= v.value < n && v.value !in before then before + [v.value] else before
  }

  /**
   The indexes the model gave: those among its values and below `n`, each once, and more values
   only put more behind them.
   */
  lemma {:induction false} FirstsMeaning(values: seq<Option<int>>, n: nat, k: nat, j: nat)
    requires j <= k <= |values|
    ensures Firsts(values, n, j) <= Firsts(values, n, k)
    ensures forall i: nat :: i in Firsts(values, n, k) <==> i < n && Some(i as int) in values[..k]
    ensures forall a, b :: 0 <= a < b < |Firsts(values, n, k)| ==> Firsts(values, n, k)[a] != Firsts(values, n, k)[b]
    decreases k
  {
    if k > 0 {
      FirstsMeaning(values, n, k - 1, if j < k then j else k - 1);
      assert values[..k] == values[..k - 1] + [values[k - 1]];
      forall i: nat
        ensures i in Firsts(values, n, k) <==> i < n && Some(i as int) in values[..k]
      {
        assert i in Firsts(values, n, k - 1) <==> i < n && Some(i as int) in values[..k - 1];
        if values[k - 1] == Some(i as int) { assert values[k - 1].value == i; }
      }
    }
  }

  ghost predicate Permutation(order: seq<nat>, n: nat) {
    && |order| == n && (forall i :: 0 <= i < n ==> i in order)
    && forall j, k :: 0 <= j < k < |order| ==> order[j] != order[k]
  }

  function Below(n: nat): set<nat> {
    if n == 0 then {} else Below(n - 1) + {n - 1}
  }

  lemma {:induction false} BelowSize(n: nat)
    ensures |Below(n)| == n && forall i :: i in Below(n) <==> 0 <= i < n
  {
    if n > 0 { BelowSize(n - 1); }
  }

  function Members(order: seq<nat>): set<nat> {
    set i | i in order
  }

  lemma {:induction false} MembersSize(order: seq<nat>)
    requires forall j, k :: 0 <= j < k < |order| ==> order[j] != order[k]
    ensures |Members(order)| == |order|
  {
    if order != [] {
      var front, last := order[..|order| - 1], order[|order| - 1];
      MembersSize(front);
      assert order == front + [last] && last !in front;
      assert Members(order) == Members(front) + {last};
    }
  }

  /** Distinct indexes that are just those below `n` are `n` many. */
  lemma CountIndexes(order: seq<nat>, n: nat)
    requires forall j, k :: 0 <= j < k < |order| ==> order[j] != order[k]
    requires forall i :: 0 <= i < n <==> i in order
    ensures |order| == n
  {
    BelowSize(n);
    MembersSize(order);
    assert Members(order) == Below(n);
  }

  /** What the model answered: an array, a record with or without an array under `order`, or something else. */
  datatype Answer =
    | Listed(values: seq<Option<int>>)
    | Record(order: Option<seq<Option<int>>>)
    | Other

  function OrderOf(parsed: Option<Answer>): Option<seq<Option<int>>> {
    match parsed
    case Some(Listed(values)) => Some(values)
    case Some(Record(order)) => order
    case _ => None
  }

  /** A permutation of 0..n-1 that begins with the model's own valid indexes. */
  method CompleteOrder(values: seq<Option<int>>, n: nat) returns (order: seq<nat>)
    ensures Permutation(order, n)
    ensures Firsts(values, n, |values|) <= order
    ensures forall j, k :: |Firsts(values, n, |values|)| <= j < k < n ==> order[j] < order[k]
  {
    order := [];
    var seen: set<nat> := {};
    for k := 0 to |values|
      invariant order == Firsts(values, n, k)
      invariant forall i :: i in seen <==> i in order
      invariant forall j :: 0 <= j < |order| ==> order[j] < n
      invariant forall i, j :: 0 <= i < j < |order| ==> order[i] != order[j]
    {
      var v := values[k];
      if v.Some? && 0 <= v.value < n && v.value !in seen {
        seen := seen + {v.value};
        order := order + [v.value];
      }
    }
    ghost var firsts := order;
    for i := 0 to n
      invariant firsts <= order
      invariant forall j :: 0 <= j < i ==> j in order
      invariant forall j :: 0 <= j < |order| ==> order[j] < n
      invariant forall j :: |firsts| <= j < |order| ==> order[j] < i && order[j] !in firsts
      invariant forall j, k :: 0 <= j < k < |order| ==> order[j] != order[k]
      invariant forall j, k :: |firsts| <= j < k < |order| ==> order[j] < order[k]
    {
      if i !in seen { order := order + [i]; }
    }
    CountIndexes(order, n);
  }

  /**
   `parseRerank` on a whole answer: null exactly when no array is in it, and otherwise a
   permutation, whatever the model wrote; the length check at the end never fails.
   */
  method ParseRerank(text: string, n: nat, parse: string -> Option<Answer>) returns (r: Option<seq<nat>>)
    ensures r.Some? <==>
      exists values :: Extracted(text, parse) == Some(Listed(values))
                       || Extracted(text, parse) == Some(Record(Some(values)))
    ensures r.Some? <==> OrderOf(Extracted(text, parse)).Some?
    ensures r.Some? ==>
      var firsts := Firsts(OrderOf(Extracted(text, parse)).value, n, |OrderOf(Extracted(text, parse)).value|);
      && Permutation(r.value, n) && firsts <= r.value
      && forall j, k :: |firsts| <= j < k < n ==> r.value[j] < r.value[k]
  {
    var parsed := ExtractJson(text, parse);
    var arr := OrderOf(parsed);
    if arr.None? { return None; }
    var order := CompleteOrder(arr.value, n);
    r := if |order| == n then Some(order) else None;
  }
}
