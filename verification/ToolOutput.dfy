/**
 The compressors of oversized tool results (packages/forge-agent/src/tool-output.ts:126-279
 and 370-395): what each keeps of the content, and how long its result can be.
 */
module ToolOutput {
  import opened Text

  function Take(s: string, n: nat): string {
    if n <= |s| then s[..n] else s
  }

  /** `s.slice(-n)`: the last `n` characters, but all of them when `n` is 0. */
  function TakeLast(s: string, n: nat): string {
    if n == 0 || n >= |s| then s else s[|s| - n..]
  }

  function Max(a: nat, b: nat): nat {
    if a < b then b else a
  }

  function HeadChars(budget: nat): nat {
    Max(500, budget * 72 / 100)
  }

  function TailChars(budget: nat): nat {
    var t := Max(300, budget * 22 / 100);
    if t > 1200 then 1200 else t
  }

  function Omitted(content: string, budget: nat): nat {
    if |content| > HeadChars(budget) + TailChars(budget) then |content| - HeadChars(budget) - TailChars(budget) else 0
  }

  function OmittedLine(n: nat): string {
    "...[" + Decimal(n) + " chars omitted]..."
  }

  function HeadTail(content: string, budget: nat): string {
    Join([Take(content, HeadChars(budget)), "", OmittedLine(Omitted(content, budget)), "--- tail ---",
          TakeLast(content, TailChars(budget))], "\n")
  }

  const REBOUND := "\n...[compressed output re-bounded]...\n"

  function BoundText(text: string, budget: nat): string {
    if |text| <= budget + 1200 then text
    else Take(text, budget * 75 / 100) + REBOUND + TakeLast(text, budget * 20 / 100)
  }

  /**
   Re-bounding keeps a text within budget + 1200 characters exactly when the text was that
   short or the budget is at least 5: below that the tail is cut with `slice(-0)`, which is
   the whole text.
   */
  lemma BoundTextIff(text: string, budget: nat)
    ensures |BoundText(text, budget)| <= budget + 1200 <==> |text| <= budget + 1200 || budget >= 5
  {
    assert |REBOUND| == 38;
    if |text| > budget + 1200 {
      if budget >= 5 {
        assert budget * 20 / 100 >= 1;
      } else {
        assert budget * 20 / 100 == 0;
      }
    }
  }

  /** A text comes out of re-bounding as it was exactly when it is short enough, whatever the budget. */
  lemma BoundWholeIff(text: string, budget: nat)
    ensures BoundText(text, budget) == text <==> |text| <= budget + 1200
  {
    assert |REBOUND| == 38;
    if |text| > budget + 1200 { assert |BoundText(text, budget)| != |text|; }
  }

  /** How many characters of its end a text keeps when it is cut: all of them for a budget below 5. */
  function EndShare(text: string, budget: nat): nat {
    |TakeLast(text, budget * 20 / 100)|
  }

  predicate EndsWith(s: string, end: string) {
    |end| <= |s| && s[|s| - |end|..] == end
  }

  /** What stands before the part kept repeats what the cut puts there: its mark, or the last characters of it. */
  predicate Mimics(text: string, budget: nat, n: nat) {
    && EndShare(text, budget) <= n <= |text|
    && EndsWith(Take(text, budget * 75 / 100) + REBOUND, text[|text| - n..|text| - EndShare(text, budget)])
  }

  /** The last `n` characters survive: nothing is cut, or they are kept, or the text repeats the mark of the cut. */
  predicate EndKept(text: string, budget: nat, n: nat) {
    |text| <= budget + 1200 || n <= EndShare(text, budget) || Mimics(text, budget, n)
  }

  lemma EndsWithConcat(a: string, x: string, b: string)
    ensures EndsWith(a + b, x + b) <==> EndsWith(a, x)
  {
    if |x| <= |a| {
      var s := a + b;
      assert s[|s| - |x + b|..] == a[|a| - |x|..] + b;
      assert EndsWith(s, x + b) ==> (x + b)[..|x|] == (a[|a| - |x|..] + b)[..|x|];
    }
  }

  lemma EndsWithPart(a: string, b: string, n: nat)
    requires n <= |b|
    ensures EndsWith(a + b, b[|b| - n..])
  {
  }

  lemma EndOfCut(text: string, cut: string, tail: string, n: nat)
    requires |tail| <= |text| && tail == text[|text| - |tail|..] && n <= |text|
    ensures n <= |tail| ==> EndsWith(cut + tail, text[|text| - n..])
    ensures n > |tail| ==>
              (EndsWith(cut + tail, text[|text| - n..]) <==> EndsWith(cut, text[|text| - n..|text| - |tail|]))
  {
    var end := text[|text| - n..];
    if n <= |tail| {
      assert end == tail[|tail| - n..];
      EndsWithPart(cut, tail, n);
    } else {
      var x := text[|text| - n..|text| - |tail|];
      assert end == x + tail;
      EndsWithConcat(cut, x, tail);
    }
  }

  /**
   What a text ends in still ends what comes out of re-bounding exactly when the text is not
   cut, or that lies within the part that is kept, or the text happens to repeat the mark of
   the cut just there.
   */
  lemma EndShownIff(text: string, budget: nat, end: string)
    requires EndsWith(text, end)
    ensures EndsWith(BoundText(text, budget), end) <==> EndKept(text, budget, |end|)
  {
    if |text| > budget + 1200 {
      var tail := KeptEnd(text, budget);
      EndOfCut(text, Take(text, budget * 75 / 100) + REBOUND, tail, |end|);
    }
  }

  lemma KeptEnd(text: string, budget: nat) returns (tail: string)
    requires |text| > budget + 1200
    ensures |tail| == EndShare(text, budget) <= |text| && tail == text[|text| - |tail|..]
    ensures BoundText(text, budget) == Take(text, budget * 75 / 100) + REBOUND + tail
  {
    tail := TakeLast(text, budget * 20 / 100);
  }

  /** For the last of these the cut must fall just behind a line break. */
  lemma MimicsBreak(text: string, budget: nat, n: nat)
    requires EndShare(text, budget) < n <= |text| && Mimics(text, budget, n)
    ensures text[|text| - EndShare(text, budget) - 1] == '\n'
  {
    var cut := Take(text, budget * 75 / 100) + REBOUND;
    var x := text[|text| - n..|text| - EndShare(text, budget)];
    assert REBOUND[37] == '\n' && cut[|cut| - 1] == '\n';
    assert x[|x| - 1] == cut[|cut| - |x|..][|x| - 1] == cut[|cut| - 1];
  }

  lemma HeadTailLength(content: string, budget: nat)
    ensures |HeadTail(content, budget)|
            == |Take(content, HeadChars(budget))| + |TakeLast(content, TailChars(budget))|
               + |Decimal(Omitted(content, budget))| + 38
  {
    var head, note, tail :=
      Take(content, HeadChars(budget)), OmittedLine(Omitted(content, budget)), TakeLast(content, TailChars(budget));
    JoinCons(head, ["", note, "--- tail ---", tail], "\n");
    JoinCons("", [note, "--- tail ---", tail], "\n");
    JoinCons(note, ["--- tail ---", tail], "\n");
    JoinCons("--- tail ---", [tail], "\n");
    assert [head, "", note, "--- tail ---", tail] == [head] + ["", note, "--- tail ---", tail];
    assert ["", note, "--- tail ---", tail] == [""] + [note, "--- tail ---", tail];
    assert [note, "--- tail ---", tail] == [note] + ["--- tail ---", tail];
    assert ["--- tail ---", tail] == ["--- tail ---"] + [tail];
  }

  /** Head and tail with the line between them stay within budget + 1200 while the count has at most 20 digits. */
  lemma HeadTailBounded(content: string, budget: nat)
    requires |Decimal(Omitted(content, budget))| <= 20
    ensures |HeadTail(content, budget)| <= budget + 1200
  {
    HeadTailLength(content, budget);
  }

  lemma JoinEnds(a: string, mid: seq<string>, e: string, sep: string)
    ensures Join([a] + mid + [e], sep) == a + Join([""] + mid + [""], sep) + e
  {
    assert [a] + mid + [e] == [a] + (mid + [e]) && [""] + mid + [""] == [""] + (mid + [""]);
    JoinCons(a, mid + [e], sep);
    JoinCons("", mid + [""], sep);
    if mid != [] {
      JoinConcat(mid, [e], sep);
      JoinConcat(mid, [""], sep);
    }
  }

  function HeadShare(budget: nat): nat {
    if budget * 72 / 100 < 500 then 500 else budget * 72 / 100
  }

  function TailShare(budget: nat): nat {
    if budget * 22 / 100 < 300 then 300 else if budget * 22 / 100 > 1200 then 1200 else budget * 22 / 100
  }

  /**
   The body begins with the head of the content, 72 percent of the budget but 500 characters
   at least, and ends with its tail, 22 percent but 300 at least and 1200 at most.
   */
  lemma HeadTailForm(content: string, budget: nat)
    ensures var h, t := HeadShare(budget), TailShare(budget);
            var omitted := if |content| > h + t then |content| - h - t else 0;
            HeadTail(content, budget)
            == (if |content| <= h then content else content[..h])
               + Join(["", "", OmittedLine(omitted), "--- tail ---", ""], "\n")
               + (if |content| <= t then content else content[|content| - t..])
  {
    var h, t := HeadShare(budget), TailShare(budget);
    assert h == HeadChars(budget) && t == TailChars(budget);
    var note := OmittedLine(Omitted(content, budget));
    NoteBetween(Take(content, h), note, TakeLast(content, t));
  }

  lemma NoteBetween(head: string, note: string, tail: string)
    ensures Join([head, "", note, "--- tail ---", tail], "\n")
            == head + Join(["", "", note, "--- tail ---", ""], "\n") + tail
  {
    JoinFive(head, "", note, "--- tail ---", tail, "\n");
  }

  lemma JoinFive(a: string, b: string, c: string, d: string, e: string, sep: string)
    ensures Join([a, b, c, d, e], sep) == a + Join(["", b, c, d, ""], sep) + e
  {
    JoinEnds(a, [b, c, d], e, sep);
    assert [a] + [b, c, d] + [e] == [a, b, c, d, e] && [""] + [b, c, d] + [""] == ["", b, c, d, ""];
  }

  /** A number printed in a text is read back where it stands. */
  lemma NumberReads(n: nat, rest: string)
    requires rest != "" && !('0' <= rest[0] <= '9')
    ensures DigitPrefix(Decimal(n) + rest) == Decimal(n) && ParseDecimal(DigitPrefix(Decimal(n) + rest)) == n
  {
    DigitPrefixOf(Decimal(n), rest);
    DecimalRoundTrip(n);
  }

  /**
   Head, omitted count and tail account for every character, and the content is the head, so
   many characters, and the tail, exactly when head and tail do not overlap.
   */
  lemma HeadTailAccounts(content: string, budget: nat)
    requires content != ""
    ensures var head, tail := Take(content, HeadChars(budget)), TakeLast(content, TailChars(budget));
            |head| + Omitted(content, budget) + |tail| == |content|
            <==> HeadChars(budget) + TailChars(budget) <= |content|
    ensures HeadChars(budget) + TailChars(budget) <= |content| ==>
              exists middle :: |middle| == Omitted(content, budget)
                && content == Take(content, HeadChars(budget)) + middle + TakeLast(content, TailChars(budget))
  {
    var h, t := HeadChars(budget), TailChars(budget);
    if h + t <= |content| {
      var middle := content[h..|content| - t];
      assert content == content[..h] + middle + content[|content| - t..];
      assert |middle| == Omitted(content, budget);
    }
  }

  // ---------------------------------------------------------------- index sets

  /** `[...keep].sort((a, b) => a - b)` for indexes below `n`. */
  function Ascending(keep: set<nat>, n: nat): seq<nat> {
    if n == 0 then [] else Ascending(keep, n - 1) + (if n - 1 in keep then [n - 1] else [])
  }

  ghost predicate Rising(indexes: seq<nat>) {
    forall j, k :: 0 <= j < k < |indexes| ==> indexes[j] < indexes[k]
  }

  ghost predicate Within(keep: set<nat>, n: nat) {
    forall i :: i in keep ==> i < n
  }

  lemma {:induction false} AscendingForm(keep: set<nat>, n: nat)
    ensures Rising(Ascending(keep, n))
    ensures forall j :: 0 <= j < |Ascending(keep, n)| ==> Ascending(keep, n)[j] < n
    ensures forall i :: i in Ascending(keep, n) <==> i in keep && i < n
  {
    if n > 0 { AscendingForm(keep, n - 1); }
  }

  lemma {:induction false} AscendingSize(keep: set<nat>, n: nat)
    requires Within(keep, n)
    ensures |Ascending(keep, n)| == |keep|
  {
    if n == 0 {
      assert keep == {};
    } else {
      AscendingSize(keep - {n - 1}, n - 1);
      AscendingSame(keep, keep - {n - 1}, n - 1);
      if n - 1 in keep { assert keep == (keep - {n - 1}) + {n - 1}; } else { assert keep == keep - {n - 1}; }
    }
  }

  lemma {:induction false} AscendingSame(a: set<nat>, b: set<nat>, n: nat)
    requires forall i :: 0 <= i < n ==> (i in a <==> i in b)
    ensures Ascending(a, n) == Ascending(b, n)
  {
    if n > 0 { AscendingSame(a, b, n - 1); }
  }

  /** `for (let i = 0; keep.size < max && i < n; i += step) add(i)`. */
  function Filled(keep: set<nat>, n: nat, max: nat, step: nat, i: nat): set<nat>
    requires step > 0
    decreases n - i
  {
    if |keep| < max && i < n then Filled(keep + {i}, n, max, step, i + step) else keep
  }

  lemma {:induction false} FilledForm(keep: set<nat>, n: nat, max: nat, step: nat, i: nat)
    requires step > 0 && Within(keep, n)
    ensures keep <= Filled(keep, n, max, step, i) && Within(Filled(keep, n, max, step, i), n)
    ensures |Filled(keep, n, max, step, i)| <= Max(|keep|, max)
    decreases n - i
  {
    if |keep| < max && i < n { FilledForm(keep + {i}, n, max, step, i + step); }
  }

  /** One of `start`, `start + step`, `start + 2 * step` and so on, below `stop`. */
  predicate Every(i: nat, step: nat, start: nat, stop: nat)
    requires step > 0
    decreases stop - start
  {
    start < stop && (i == start || Every(i, step, start + step, stop))
  }

  /** Every `step`-th index from the start on is added, up to where the set is full or the list ends. */
  lemma {:induction false} FilledMeaning(keep: set<nat>, n: nat, max: nat, step: nat, start: nat) returns (stop: nat)
    requires step > 0 && Within(keep, n)
    ensures stop >= start
    ensures forall i: nat :: i in Filled(keep, n, max, step, start) <==> i in keep || Every(i, step, start, stop)
    ensures stop >= n || |Filled(keep, n, max, step, start)| >= max
    ensures Within(Filled(keep, n, max, step, start), n)
    decreases n - start
  {
    stop := start;
    if |keep| < max && start < n {
      stop := FilledMeaning(keep + {start}, n, max, step, start + step);
    }
  }

  method Fill(before: set<nat>, n: nat, max: nat, step: nat) returns (keep: set<nat>)
    requires step > 0
    ensures keep == Filled(before, n, max, step, 0)
  {
    keep := before;
    var i := 0;
    while |keep| < max && i < n
      invariant Filled(keep, n, max, step, i) == Filled(before, n, max, step, 0)
      decreases n - i
    {
      keep := keep + {i};
      i := i + step;
    }
  }

  // ---------------------------------------------------------------- what comes from outside

  datatype Match = Match(file: string, text: string)

  /** `JSON.parse` of an array of records with its rendering, the tests by pattern, and the search line pattern. */
  datatype Reader<!V> = Reader(
    parse: string -> Option<seq<V>>,
    notable: V -> bool,
    render: (seq<V>, seq<nat>) -> string,
    searchLine: string -> Option<Match>,
    diffOrCode: string -> bool,
    log: string -> bool,
    matchMatters: string -> bool,
    lineMatters: string -> bool
  )

  datatype Strategy = JsonArray | SearchResults | Log | DiffOrCode | HeadAndTail

  /** A compressed body, and the number its summary gives for what is omitted. */
  datatype Compressed = Compressed(content: string, strategy: Strategy, omitted: Option<nat>)

  // ---------------------------------------------------------------- JSON arrays

  /** The first three items, the last two and the notable ones. */
  function JsonBase<V>(items: seq<V>, notable: V -> bool): set<nat> {
    set i: nat | 0 <= i < |items| && (i < 3 || i + 2 >= |items| || notable(items[i]))
  }

  function MaxItems(budget: nat): nat {
    Max(8, if budget / 300 < 24 then budget / 300 else 24)
  }

  function JsonStep(n: nat, max: nat, size: nat): (step: nat)
    ensures step > 0
  {
    Max(1, n / (if max > size then max - size else 1))
  }

  function JsonKeep<V>(items: seq<V>, notable: V -> bool, budget: nat): set<nat> {
    var base := JsonBase(items, notable);
    Filled(base, |items|, MaxItems(budget), JsonStep(|items|, MaxItems(budget), |base|), 0)
  }

  function JsonCompressed<V>(content: string, budget: nat, reader: Reader<V>): Option<Compressed> {
    var parsed := reader.parse(content);
    if parsed.None? || |parsed.value| < 6 then None
    else
      var items := parsed.value;
      var kept := Ascending(JsonKeep(items, reader.notable, budget), |items|);
      var body := reader.render(items, kept);
      AscendingShort(JsonKeep(items, reader.notable, budget), |items|);
      if |body| >= |content| then None
      else Some(Compressed(BoundText(body, budget), JsonArray, Some(|items| - |kept|)))
  }

  /**
   Of an array the first three rows, the last two and every notable row are kept, and beyond
   those no more than fit the number of rows the budget allows; kept and dropped add up.
   */
  lemma JsonKeeps<V>(items: seq<V>, notable: V -> bool, budget: nat)
    requires |items| >= 6
    ensures var keep := JsonKeep(items, notable, budget);
            && (forall i :: 0 <= i < |items| && (i < 3 || i + 2 >= |items| || notable(items[i])) ==> i in keep)
            && Within(keep, |items|) && |keep| <= Max(|JsonBase(items, notable)|, RowLimit(budget))
            && |Ascending(keep, |items|)| == |keep| <= |items|
  {
    var base, keep := JsonBase(items, notable), JsonKeep(items, notable, budget);
    FilledForm(base, |items|, MaxItems(budget), JsonStep(|items|, MaxItems(budget), |base|), 0);
    AscendingSize(keep, |items|);
    AscendingShort(keep, |items|);
  }

  /** One row for every 300 characters of the budget, but between eight and 24. */
  function RowLimit(budget: nat): nat {
    if budget / 300 < 8 then 8 else if budget / 300 > 24 then 24 else budget / 300
  }

  /**
   The other rows kept are every `step`-th of the array, up to the limit, where `step` spreads
   the rows there is room for over the whole array.
   */
  lemma JsonSamples<V>(items: seq<V>, notable: V -> bool, budget: nat) returns (stop: nat)
    ensures var base, keep := JsonBase(items, notable), JsonKeep(items, notable, budget);
            var room := if RowLimit(budget) > |base| then RowLimit(budget) - |base| else 1;
            var step := if |items| / room > 0 then |items| / room else 1;
            && (forall i: nat :: i in keep <==> i in base || Every(i, step, 0, stop))
            && (stop >= |items| || |keep| >= RowLimit(budget))
  {
    var base := JsonBase(items, notable);
    assert MaxItems(budget) == RowLimit(budget);
    stop := FilledMeaning(base, |items|, MaxItems(budget), JsonStep(|items|, MaxItems(budget), |base|), 0);
  }

  /** The rows printed for an array, before re-bounding. */
  function JsonText<V>(items: seq<V>, budget: nat, reader: Reader<V>): string {
    reader.render(items, Ascending(JsonKeep(items, reader.notable, budget), |items|))
  }

  /** All the rows kept reach the body exactly when their rendering is short enough; otherwise its middle is cut out. */
  lemma JsonWholeIff<V>(content: string, budget: nat, reader: Reader<V>)
    requires JsonCompressed(content, budget, reader).Some?
    ensures var body := JsonCompressed(content, budget, reader).value.content;
            var text := JsonText(reader.parse(content).value, budget, reader);
            && (body == text <==> |text| <= budget + 1200)
            && body == BoundText(text, budget) && |text| < |content|
            && JsonCompressed(content, budget, reader).value.omitted
               == Some(|reader.parse(content).value| - |JsonKeep(reader.parse(content).value, reader.notable, budget)|)
  {
    var keep := JsonKeep(reader.parse(content).value, reader.notable, budget);
    JsonKeeps(reader.parse(content).value, reader.notable, budget);
    BoundWholeIff(JsonText(reader.parse(content).value, budget, reader), budget);
  }

  lemma {:induction false} AscendingShort(keep: set<nat>, n: nat)
    ensures |Ascending(keep, n)| <= n
  {
    if n > 0 { AscendingShort(keep, n - 1); }
  }

  method CompressJsonArray<V>(content: string, budget: nat, reader: Reader<V>) returns (r: Option<Compressed>)
    ensures r == JsonCompressed(content, budget, reader)
  {
    var parsed := reader.parse(content);
    if parsed.None? || |parsed.value| < 6 { return None; }
    var items := parsed.value;
    var keep: set<nat> := {0, 1, 2};
    keep := keep + {|items| - 2, |items| - 1};
    for i := 0 to |items|
      invariant keep == set k: nat |
        0 <= k < |items| && (k < 3 || k + 2 >= |items| || (k < i && reader.notable(items[k])))
    {
      if reader.notable(items[i]) { keep := keep + {i}; }
    }
    assert keep == JsonBase(items, reader.notable);
    var maxItems := MaxItems(budget);
    keep := Fill(keep, |items|, maxItems, JsonStep(|items|, maxItems, |keep|));
    JsonKeeps(items, reader.notable, budget);
    var kept := Ascending(keep, |items|);
    var body := reader.render(items, kept);
    if |body| >= |content| { return None; }
    r := Some(Compressed(BoundText(body, budget), JsonArray, Some(|items| - |kept|)));
  }

  // ---------------------------------------------------------------- logs

  /** The first and last twenty lines, and those within three of a line that matters. */
  predicate LogKept(lines: seq<string>, matters: string -> bool, i: nat) {
    && i < |lines|
    && (i < 20 || i + 20 >= |lines|
        || exists j :: 0 <= j < |lines| && j - 3 <= i <= j + 3 && matters(lines[j]))
  }

  function LogKeep(lines: seq<string>, matters: string -> bool): set<nat> {
    set i: nat | 0 <= i < |lines| && LogKept(lines, matters, i)
  }

  function MaxLines(budget: nat): nat {
    Max(80, budget / 80)
  }

  /** One line for every 80 characters of the budget, but eighty at least. */
  function LineLimit(budget: nat): nat {
    if budget / 80 < 80 then 80 else budget / 80
  }

  /** The first of the kept lines, as many as the budget allows. */
  function LogSelected(lines: seq<string>, matters: string -> bool, budget: nat): (selected: seq<nat>)
    ensures |selected| <= |lines| && forall j :: 0 <= j < |selected| ==> selected[j] < |lines|
  {
    AscendingForm(LogKeep(lines, matters), |lines|);
    AscendingShort(LogKeep(lines, matters), |lines|);
    var all := Ascending(LogKeep(lines, matters), |lines|);
    if |all| <= MaxLines(budget) then all else all[..MaxLines(budget)]
  }

  /** The lines omitted between the `k`-th selected line and the one before it. */
  function Gap(selected: seq<nat>, k: nat): nat
    requires k < |selected|
  {
    if k == 0 || selected[k] <= selected[k - 1] then 0 else selected[k] - selected[k - 1] - 1
  }

  function OmittedNote(n: nat): string {
    "... " + Decimal(n) + " line(s) omitted ..."
  }

  /** The `k`-th selected line under its number, after a note on the lines omitted before it. */
  function LogLine(lines: seq<string>, selected: seq<nat>, k: nat): (printed: seq<string>)
    requires k < |selected| && selected[k] < |lines|
    ensures printed != []
  {
    var line := Decimal(selected[k] + 1) + ": " + lines[selected[k]];
    if Gap(selected, k) > 0 then [OmittedNote(Gap(selected, k)), line] else [line]
  }

  function Flatten(parts: seq<seq<string>>): seq<string> {
    if parts == [] then [] else Flatten(parts[..|parts| - 1]) + parts[|parts| - 1]
  }

  lemma {:induction false} FlattenConcat(a: seq<seq<string>>, b: seq<seq<string>>)
    ensures Flatten(a + b) == Flatten(a) + Flatten(b)
    decreases |b|
  {
    if b == [] {
      assert a + b == a && Flatten(a) + [] == Flatten(a);
    } else {
      var front := b[..|b| - 1];
      FlattenConcat(a, front);
      assert (a + b)[..|a + b| - 1] == a + front;
      ConcatAssoc(Flatten(a), Flatten(front), b[|b| - 1]);
    }
  }

  lemma FlattenOne(block: seq<string>)
    ensures Flatten([block]) == block
  {
    assert [block][..0] == [] && Flatten([]) + block == block;
  }

  lemma FlattenSplit(blocks: seq<seq<string>>, k: nat)
    requires k < |blocks|
    ensures Flatten(blocks) == Flatten(blocks[..k]) + Flatten(blocks[k..])
    ensures Flatten(blocks[..k + 1]) == Flatten(blocks[..k]) + blocks[k]
    ensures blocks[|blocks| - 1] != [] ==> Flatten(blocks[k..]) != []
  {
    assert blocks[..k] + blocks[k..] == blocks;
    FlattenConcat(blocks[..k], blocks[k..]);
    assert blocks[..k + 1][..k] == blocks[..k];
  }

  function LogBlocks(lines: seq<string>, selected: seq<nat>): seq<seq<string>>
    requires forall j :: 0 <= j < |selected| ==> selected[j] < |lines|
  {
    seq(|selected|, k requires 0 <= k < |selected| => LogLine(lines, selected, k))
  }

  /** The printed form of the first `k` selected lines. */
  function LogLines(lines: seq<string>, selected: seq<nat>, k: nat): seq<string>
    requires k <= |selected| && forall j :: 0 <= j < |selected| ==> selected[j] < |lines|
  {
    Flatten(LogBlocks(lines, selected)[..k])
  }

  function LogHeader(total: nat, selected: nat): string {
    "[forge compressed log: " + Decimal(total) + " lines -> " + Decimal(selected) + " selected lines]"
  }

  /**
   What is printed of a log can be read back: a line is its number, a colon and its text, and
   a note in front of it, if lines were left out there, holds how many.
   */
  lemma LogLineReads(lines: seq<string>, selected: seq<nat>, k: nat)
    requires k < |selected| && selected[k] < |lines|
    ensures var printed := LogLine(lines, selected, k);
            var line, number := printed[|printed| - 1], DigitPrefix(printed[|printed| - 1]);
            && ParseDecimal(number) == selected[k] + 1 && line == number + ": " + lines[selected[k]]
            && (|printed| == if Gap(selected, k) > 0 then 2 else 1)
            && (|printed| == 2 ==>
                  "... " <= printed[0] && ParseDecimal(DigitPrefix(printed[0][4..])) == Gap(selected, k))
  {
    var text := ": " + lines[selected[k]];
    NumberReads(selected[k] + 1, text);
    assert Decimal(selected[k] + 1) + ": " + lines[selected[k]] == Decimal(selected[k] + 1) + text;
    NoteReads("... ", Gap(selected, k), " line(s) omitted ...");
  }

  /** As do the header's two counts. */
  lemma LogHeaderReads(total: nat, selected: nat)
    ensures ParseDecimal(DigitPrefix(LogHeader(total, selected)[23..])) == total
    ensures ParseDecimal(DigitPrefix(LogHeader(total, selected)[23 + |Decimal(total)| + 10..])) == selected
  {
    TwoNumbersRead("[forge compressed log: ", total, " lines -> ", selected, " selected lines]");
  }

  lemma NoteReads(before: string, n: nat, after: string)
    requires after != "" && !('0' <= after[0] <= '9')
    ensures before <= before + Decimal(n) + after
    ensures ParseDecimal(DigitPrefix((before + Decimal(n) + after)[|before|..])) == n
  {
    NumberReads(n, after);
    DropFront(before, Decimal(n), after);
  }

  lemma DropFront(a: string, b: string, c: string)
    ensures a <= a + b + c && (a + b + c)[|a|..] == b + c
  {
  }

  lemma TwoNumbersRead(a: string, m: nat, b: string, n: nat, c: string)
    requires b != "" && !('0' <= b[0] <= '9') && c != "" && !('0' <= c[0] <= '9')
    ensures ParseDecimal(DigitPrefix((a + Decimal(m) + b + Decimal(n) + c)[|a|..])) == m
    ensures ParseDecimal(DigitPrefix((a + Decimal(m) + b + Decimal(n) + c)[|a| + |Decimal(m)| + |b|..])) == n
  {
    var rest := b + Decimal(n) + c;
    ConcatAssoc(a + Decimal(m), b, Decimal(n) + c);
    ConcatAssoc(a + Decimal(m) + b, Decimal(n), c);
    ConcatAssoc(b, Decimal(n), c);
    assert a + Decimal(m) + b + Decimal(n) + c == a + Decimal(m) + rest;
    NoteReads(a, m, rest);
    NoteReads(a + Decimal(m) + b, n, c);
  }

  /** What is printed of a log, before re-bounding. */
  function LogText(lines: seq<string>, selected: seq<nat>): string
    requires forall j :: 0 <= j < |selected| ==> selected[j] < |lines|
  {
    Join([LogHeader(|lines|, |selected|)] + LogLines(lines, selected, |selected|), "\n")
  }

  function LogPrinted(lines: seq<string>, selected: seq<nat>, budget: nat): Compressed
    requires |selected| <= |lines| && forall j :: 0 <= j < |selected| ==> selected[j] < |lines|
  {
    Compressed(BoundText(LogText(lines, selected), budget), Log, Some(|lines| - |selected|))
  }

  function LogCompressed(content: string, budget: nat, matters: string -> bool): Compressed {
    var lines := Split(content, '\n');
    LogPrinted(lines, LogSelected(lines, matters, budget), budget)
  }

  lemma SelectedForm(lines: seq<string>, matters: string -> bool, budget: nat)
    ensures var selected := LogSelected(lines, matters, budget);
            && Rising(selected) && |selected| <= |lines|
            && forall j :: 0 <= j < |selected| ==> selected[j] < |lines| && LogKept(lines, matters, selected[j])
  {
    var keep := LogKeep(lines, matters);
    AscendingForm(keep, |lines|);
    AscendingShort(keep, |lines|);
    var all := Ascending(keep, |lines|);
    forall j | 0 <= j < |all|
      ensures all[j] < |lines| && LogKept(lines, matters, all[j])
    {
      assert all[j] in all;
    }
  }

  lemma {:induction false} RisingAbove(indexes: seq<nat>, k: nat)
    requires Rising(indexes) && k < |indexes|
    ensures k <= indexes[k]
  {
    if k > 0 { RisingAbove(indexes, k - 1); }
  }

  /** The greatest index below `n` comes last. */
  lemma AscendingLast(keep: set<nat>, n: nat)
    requires n > 0 && n - 1 in keep
    ensures var all := Ascending(keep, n); all != [] && all[|all| - 1] == n - 1
  {
  }

  function From(start: nat, n: nat): seq<nat> {
    seq(n, j requires 0 <= j < n => start + j)
  }

  lemma {:induction false} AscendingEnd(keep: set<nat>, start: nat, n: nat)
    requires forall i :: start <= i < start + n ==> i in keep
    ensures Ascending(keep, start + n) == Ascending(keep, start) + From(start, n)
  {
    if n > 0 {
      AscendingEnd(keep, start, n - 1);
      assert From(start, n) == From(start, n - 1) + [start + n - 1];
    }
  }

  lemma RisingPart(all: seq<nat>, k: nat, i: nat)
    requires Rising(all) && k <= |all| && i in all
    ensures k == |all| || i < all[k] ==> i in all[..k]
    ensures k < |all| && all[k] <= i ==> i !in all[..k]
  {
    var j :| 0 <= j < |all| && all[j] == i;
    if j < k { assert all[..k][j] == i; }
  }

  /**
   The lines printed of a log: the head always. The last line, and with it the tail and every
   line that matters, exactly when no more lines are chosen than the budget allows; otherwise
   lines are lost from the end.
   */
  lemma LogTailIff(lines: seq<string>, matters: string -> bool, budget: nat)
    requires lines != []
    ensures var selected, keep := LogSelected(lines, matters, budget), LogKeep(lines, matters);
            && (forall i :: 0 <= i < 20 && i < |lines| ==> i in selected)
            && (|lines| - 1 in selected <==> |keep| <= LineLimit(budget))
            && ((forall i :: i in keep ==> i in selected) <==> |keep| <= LineLimit(budget))
  {
    var keep, all := LogKeep(lines, matters), Ascending(LogKeep(lines, matters), |lines|);
    var max := MaxLines(budget);
    AscendingForm(keep, |lines|);
    AscendingSize(keep, |lines|);
    AscendingLast(keep, |lines|);
    assert LogKept(lines, matters, |lines| - 1);
    if |all| > max {
      RisingAbove(all, max);
      RisingPart(all, max, |lines| - 1);
    }
    forall i: nat | i < 20 && i < |lines|
      ensures i in LogSelected(lines, matters, budget)
    {
      assert LogKept(lines, matters, i) && i in all;
      if |all| > max { RisingPart(all, max, i); }
    }
  }

  /** The numbers in the "omitted" notes before the first `k` selected lines. */
  function Noted(selected: seq<nat>, k: nat): nat
    requires k <= |selected|
  {
    if k == 0 then 0 else Noted(selected, k - 1) + Gap(selected, k - 1)
  }

  lemma {:induction false} NotedSum(selected: seq<nat>, k: nat)
    requires Rising(selected) && 0 < k <= |selected|
    ensures Noted(selected, k) == selected[k - 1] - selected[0] - (k - 1)
  {
    if k > 1 { NotedSum(selected, k - 1); }
  }

  /**
   The notes and the printed lines account for every line up to the last one printed, and for
   the whole log exactly when nothing was lost from its end. The summary counts all omitted lines.
   */
  lemma LogAccounts(lines: seq<string>, matters: string -> bool, budget: nat)
    requires lines != []
    ensures var selected := LogSelected(lines, matters, budget);
            && selected != [] && selected[0] == 0
            && Noted(selected, |selected|) + |selected| == selected[|selected| - 1] + 1
            && (Noted(selected, |selected|) + |selected| == |lines| <==>
                  |LogKeep(lines, matters)| <= LineLimit(budget))
            && LogPrinted(lines, selected, budget).omitted == Some(|lines| - |selected|)
  {
    var selected := LogSelected(lines, matters, budget);
    LogTailIff(lines, matters, budget);
    SelectedForm(lines, matters, budget);
    assert 0 in selected;
    var z :| 0 <= z < |selected| && selected[z] == 0;
    RisingAbove(selected, z);
    NotedSum(selected, |selected|);
    if |lines| - 1 in selected {
      var l :| 0 <= l < |selected| && selected[l] == |lines| - 1;
      assert l == |selected| - 1;
    }
  }

  // ---------------------------------------------------------------- logs after re-bounding

  /** The printed form of the selected lines from the `k`-th on. */
  function LogLinesFrom(lines: seq<string>, selected: seq<nat>, k: nat): seq<string>
    requires k <= |selected| && forall j :: 0 <= j < |selected| ==> selected[j] < |lines|
  {
    Flatten(LogBlocks(lines, selected)[k..])
  }

  lemma LogLinesSplit(lines: seq<string>, selected: seq<nat>, k: nat)
    requires k < |selected| && forall j :: 0 <= j < |selected| ==> selected[j] < |lines|
    ensures LogLines(lines, selected, |selected|) == LogLines(lines, selected, k) + LogLinesFrom(lines, selected, k)
    ensures LogLinesFrom(lines, selected, k) != []
  {
    var blocks := LogBlocks(lines, selected);
    FlattenSplit(blocks, k);
    assert blocks[..|selected|] == blocks;
  }

  /** How the last `n` selected lines are printed, with the notes before them. */
  function LogEnd(lines: seq<string>, selected: seq<nat>, n: nat): string
    requires n <= |selected| && forall j :: 0 <= j < |selected| ==> selected[j] < |lines|
  {
    Join(LogLinesFrom(lines, selected, |selected| - n), "\n")
  }

  lemma LogEndIsEnd(lines: seq<string>, selected: seq<nat>, n: nat)
    requires 0 < n <= |selected| && forall j :: 0 <= j < |selected| ==> selected[j] < |lines|
    ensures EndsWith(LogText(lines, selected), LogEnd(lines, selected, n))
  {
    var k := |selected| - n;
    var before := [LogHeader(|lines|, |selected|)] + LogLines(lines, selected, k);
    var end := LogLinesFrom(lines, selected, k);
    LogLinesSplit(lines, selected, k);
    ConcatAssoc([LogHeader(|lines|, |selected|)], LogLines(lines, selected, k), end);
    JoinConcat(before, end, "\n");
    EndsWithPart(Join(before, "\n") + "\n", Join(end, "\n"), |Join(end, "\n")|);
  }

  /** Everything printed of a log reaches the body exactly when it is short enough; otherwise its middle is cut out. */
  lemma LogWholeIff(content: string, budget: nat, matters: string -> bool)
    ensures var lines := Split(content, '\n');
            var text := LogText(lines, LogSelected(lines, matters, budget));
            var body := LogCompressed(content, budget, matters).content;
            body == BoundText(text, budget) && (body == text <==> |text| <= budget + 1200)
  {
    var lines := Split(content, '\n');
    SelectedForm(lines, matters, budget);
    BoundWholeIff(LogText(lines, LogSelected(lines, matters, budget)), budget);
  }

  /**
   The body of a log still ends with the last `n` lines printed exactly when nothing was cut,
   or these lines, as printed, lie within the part that is kept, or the log repeats the mark
   of the cut just before that.
   */
  lemma LogEndShownIff(lines: seq<string>, selected: seq<nat>, budget: nat, n: nat)
    requires |selected| <= |lines| && forall j :: 0 <= j < |selected| ==> selected[j] < |lines|
    requires 0 < n <= |selected|
    ensures EndsWith(LogPrinted(lines, selected, budget).content, LogEnd(lines, selected, n))
       <==> EndKept(LogText(lines, selected), budget, |LogEnd(lines, selected, n)|)
  {
    LogEndIsEnd(lines, selected, n);
    EndShownIff(LogText(lines, selected), budget, LogEnd(lines, selected, n));
  }

  /** With no more lines chosen than the budget allows, the last twenty printed are the last twenty of the log. */
  lemma LogEndIsTail(lines: seq<string>, matters: string -> bool, budget: nat)
    requires |LogKeep(lines, matters)| <= MaxLines(budget) && |lines| >= 20
    ensures var selected := LogSelected(lines, matters, budget);
            |selected| >= 20 && selected[|selected| - 20..] == From(|lines| - 20, 20)
  {
    var keep := LogKeep(lines, matters);
    AscendingForm(keep, |lines|);
    AscendingSize(keep, |lines|);
    forall i | |lines| - 20 <= i < |lines|
      ensures i in keep
    {
      assert LogKept(lines, matters, i);
    }
    AscendingEnd(keep, |lines| - 20, 20);
  }

  lemma EndsWithin(s: string, end: string, line: string)
    requires EndsWith(s, end) && EndsWith(end, line)
    ensures EndsWith(s, line)
  {
  }

  lemma LastPrinted(lines: seq<string>, selected: seq<nat>)
    requires selected != [] && forall j :: 0 <= j < |selected| ==> selected[j] < |lines|
    ensures EndsWith(LogEnd(lines, selected, 1), lines[selected[|selected| - 1]])
  {
    var k, line := |selected| - 1, lines[selected[|selected| - 1]];
    var blocks := LogBlocks(lines, selected);
    var block := LogLine(lines, selected, k);
    assert blocks[k..] == [block];
    FlattenOne(block);
    var numbered := Decimal(selected[k] + 1) + ": " + line;
    assert EndsWith(numbered, line);
    if |block| == 2 {
      JoinCons(block[0], [numbered], "\n");
      assert block == [block[0]] + [numbered];
      EndsWithPart(block[0] + "\n", numbered, |line|);
    }
  }

  lemma NoMimic(text: string, budget: nat, n: nat)
    requires EndShare(text, budget) < n <= |text| && text[|text| - EndShare(text, budget) - 1] != '\n'
    ensures !Mimics(text, budget, n)
  {
    if Mimics(text, budget, n) { MimicsBreak(text, budget, n); }
  }

  /**
   So a line can be lost although it is chosen: a last line longer than budget + 1200 never
   ends the body as it was printed, however few lines the log has.
   */
  lemma LongLineLost(content: string, budget: nat, matters: string -> bool)
    requires budget >= 5 && |Split(content, '\n')| <= MaxLines(budget)
    requires var lines := Split(content, '\n'); |lines[|lines| - 1]| > budget + 1200
    ensures var lines := Split(content, '\n');
            var selected := LogSelected(lines, matters, budget);
            && selected != [] && selected[|selected| - 1] == |lines| - 1
            && |LogKeep(lines, matters)| <= MaxLines(budget)
            && !EndsWith(LogCompressed(content, budget, matters).content, LogEnd(lines, selected, 1))
  {
    var lines := Split(content, '\n');
    var keep := LogKeep(lines, matters);
    assert LogKept(lines, matters, |lines| - 1);
    AscendingLast(keep, |lines|);
    AscendingSize(keep, |lines|);
    AscendingShort(keep, |lines|);
    SplitJoins("", content, '\n');
    LongEndLost(lines, LogSelected(lines, matters, budget), budget);
  }

  lemma LongEndLost(lines: seq<string>, selected: seq<nat>, budget: nat)
    requires selected != [] && |selected| <= |lines| && forall j :: 0 <= j < |selected| ==> selected[j] < |lines|
    requires var line := lines[selected[|selected| - 1]]; |line| > budget + 1200 && '\n' !in line
    requires budget >= 5
    ensures !EndsWith(LogPrinted(lines, selected, budget).content, LogEnd(lines, selected, 1))
  {
    var text, end, line := LogText(lines, selected), LogEnd(lines, selected, 1), lines[selected[|selected| - 1]];
    LogEndShownIff(lines, selected, budget, 1);
    LogEndIsEnd(lines, selected, 1);
    LastPrinted(lines, selected);
    EndsWithin(text, end, line);
    assert EndShare(text, budget) == budget * 20 / 100;
    assert text[|text| - EndShare(text, budget) - 1] == line[|line| - EndShare(text, budget) - 1];
    NoMimic(text, budget, |end|);
  }

  /** The three loops that fill the keep set. */
  method SelectLogLines(lines: seq<string>, matters: string -> bool) returns (keep: set<nat>)
    ensures keep == LogKeep(lines, matters)
    ensures forall i :: i in keep <==>
      && 0 <= i < |lines|
      && (i < 20 || i >= |lines| - 20 || exists j :: 0 <= j < |lines| && j - 3 <= i <= j + 3 && matters(lines[j]))
  {
    keep := {};
    for i := 0 to |lines|
      invariant forall k :: k in keep <==> 0 <= k < i && k < 20
    {
      if i < 20 { keep := keep + {i}; }
    }
    for i := 0 to |lines|
      invariant forall k :: k in keep <==> 0 <= k < |lines| && (k < 20 || (k < i && k + 20 >= |lines|))
    {
      if i + 20 >= |lines| { keep := keep + {i}; }
    }
    for i := 0 to |lines|
      invariant forall k :: k in keep <==>
                  (&& 0 <= k < |lines|
                   && (k < 20 || k + 20 >= |lines|
                       || exists j :: 0 <= j < i && j - 3 <= k <= j + 3 && matters(lines[j])))
    {
      if matters(lines[i]) {
        var from, to := if i < 3 then 0 else i - 3, if i + 4 > |lines| then |lines| else i + 4;
        ghost var before := keep;
        for k := from to to
          invariant forall m :: m in keep <==> m in before || from <= m < k
        {
          keep := keep + {k};
        }
      }
    }
  }

  method PrintLine(lines: seq<string>, selected: seq<nat>, k: nat) returns (out: seq<string>)
    requires k < |selected| && selected[k] < |lines|
    ensures out == LogLine(lines, selected, k)
  {
    out := [];
    if k > 0 && selected[k] > selected[k - 1] + 1 {
      out := out + [OmittedNote(selected[k] - selected[k - 1] - 1)];
    }
    out := out + [Decimal(selected[k] + 1) + ": " + lines[selected[k]]];
  }

  method PrintLog(lines: seq<string>, selected: seq<nat>, budget: nat) returns (r: Compressed)
    requires |selected| <= |lines| && forall j :: 0 <= j < |selected| ==> selected[j] < |lines|
    ensures r == LogPrinted(lines, selected, budget)
  {
    var out: seq<string> := [];
    ghost var blocks := LogBlocks(lines, selected);
    for k := 0 to |selected|
      invariant out == Flatten(blocks[..k])
    {
      FlattenSplit(blocks, k);
      var printed := PrintLine(lines, selected, k);
      out := out + printed;
    }
    var header := [LogHeader(|lines|, |selected|)];
    r := Compressed(BoundText(Join(header + out, "\n"), budget), Log, Some(|lines| - |selected|));
  }

  method CompressLog(content: string, budget: nat, matters: string -> bool) returns (r: Compressed)
    ensures r == LogCompressed(content, budget, matters)
  {
    var lines := Split(content, '\n');
    var keep := SelectLogLines(lines, matters);
    var selected := Ascending(keep, |lines|);
    if |selected| > MaxLines(budget) { selected := selected[..MaxLines(budget)]; }
    SelectedForm(lines, matters, budget);
    r := PrintLog(lines, selected, budget);
  }

  // ---------------------------------------------------------------- search results

  /** The lines chosen of one file: first, last, those that matter while there is room, then some in between. */
  function Marked(keep: set<nat>, lines: seq<string>, matters: string -> bool, max: nat, i: nat): set<nat>
    decreases |lines| - i
  {
    if i >= |lines| then keep
    else
      var more := if matters(lines[i]) then keep + {i} else keep;
      if |more| >= max then more else Marked(more, lines, matters, max, i + 1)
  }

  function Ends(n: nat): set<nat> {
    if n == 0 then {} else {0, n - 1}
  }

  function ImportantStep(n: nat, max: nat): (step: nat)
    requires max > 0
    ensures step > 0
  {
    Max(1, n / max)
  }

  function ImportantKeep(lines: seq<string>, max: nat, matters: string -> bool): set<nat>
    requires max > 0
  {
    Filled(Marked(Ends(|lines|), lines, matters, max, 0), |lines|, max, ImportantStep(|lines|, max), 0)
  }

  lemma {:induction false} MarkedForm(keep: set<nat>, lines: seq<string>, matters: string -> bool, max: nat, i: nat)
    requires Within(keep, |lines|) && (|keep| < max || |keep| <= 2 <= max)
    ensures keep <= Marked(keep, lines, matters, max, i) && Within(Marked(keep, lines, matters, max, i), |lines|)
    ensures |Marked(keep, lines, matters, max, i)| <= Max(max, |keep| + 1)
    decreases |lines| - i
  {
    if i < |lines| {
      var more := if matters(lines[i]) then keep + {i} else keep;
      if |more| < max { MarkedForm(more, lines, matters, max, i + 1); }
    }
  }

  /** Which lines are marked: only ones that matter, and all of them up to where there is no more room. */
  lemma {:induction false} MarkedMeaning(keep: set<nat>, lines: seq<string>, matters: string -> bool, max: nat,
                                         start: nat) returns (stop: nat)
    requires start <= |lines|
    ensures start <= stop <= |lines|
    ensures forall i: nat :: i in Marked(keep, lines, matters, max, start) <==>
      i in keep || (start <= i < stop && matters(lines[i]))
    ensures stop == |lines| || |Marked(keep, lines, matters, max, start)| >= max
    decreases |lines| - start
  {
    stop := start;
    if start < |lines| {
      var more := if matters(lines[start]) then keep + {start} else keep;
      stop := start + 1;
      if |more| < max { stop := MarkedMeaning(more, lines, matters, max, start + 1); }
    }
  }

  /**
   Which lines are chosen: the first and the last, those that matter up to where there is no
   more room, and every `step`-th from the start while there is.
   */
  lemma ImportantMeaning(lines: seq<string>, max: nat, matters: string -> bool) returns (marked: nat, filled: nat)
    requires max > 2 && lines != []
    ensures var keep := ImportantKeep(lines, max, matters);
            var step := if |lines| / max > 0 then |lines| / max else 1;
            && marked <= |lines|
            && (forall i: nat :: i in keep <==> i == 0 || i == |lines| - 1 || (i < marked && matters(lines[i]))
                                                || Every(i, step, 0, filled))
            && (marked == |lines| || |keep| >= max) && (filled >= |lines| || |keep| >= max)
  {
    var ends := Ends(|lines|);
    EndsForm(|lines|);
    MarkedForm(ends, lines, matters, max, 0);
    marked := MarkedMeaning(ends, lines, matters, max, 0);
    var some := Marked(ends, lines, matters, max, 0);
    filled := FilledMeaning(some, |lines|, max, ImportantStep(|lines|, max), 0);
    FilledForm(some, |lines|, max, ImportantStep(|lines|, max), 0);
    Larger(some, ImportantKeep(lines, max, matters));
  }

  lemma Larger(a: set<nat>, b: set<nat>)
    requires a <= b
    ensures |a| <= |b|
  {
    assert b == a + (b - a) && |a + (b - a)| == |a| + |b - a|;
  }

  /** Of any list at most `max` lines are chosen, the first and the last among them. */
  lemma ImportantForm(lines: seq<string>, max: nat, matters: string -> bool)
    requires max > 2
    ensures var keep := ImportantKeep(lines, max, matters);
            Within(keep, |lines|) && |keep| <= max && (lines != [] ==> 0 in keep && |lines| - 1 in keep)
  {
    var ends := Ends(|lines|);
    EndsForm(|lines|);
    MarkedForm(ends, lines, matters, max, 0);
    FilledForm(Marked(ends, lines, matters, max, 0), |lines|, max, ImportantStep(|lines|, max), 0);
  }

  lemma EndsForm(n: nat)
    ensures Within(Ends(n), n) && |Ends(n)| <= 2 && (n > 0 ==> 0 in Ends(n) && n - 1 in Ends(n))
  {
    assert Ends(n) == {} || Ends(n) == {0} || |Ends(n)| == 2;
  }

  method MarkImportant(ends: set<nat>, lines: seq<string>, max: nat, matters: string -> bool) returns (keep: set<nat>)
    ensures keep == Marked(ends, lines, matters, max, 0)
  {
    keep := ends;
    var i := 0;
    while i < |lines|
      invariant Marked(keep, lines, matters, max, i) == Marked(ends, lines, matters, max, 0)
    {
      if matters(lines[i]) { keep := keep + {i}; }
      if |keep| >= max { break; }
      i := i + 1;
    }
  }

  method SelectImportantLines(lines: seq<string>, max: nat, matters: string -> bool) returns (selected: seq<nat>)
    requires max > 0
    ensures selected == Ascending(ImportantKeep(lines, max, matters), |lines|)
  {
    var keep := MarkImportant(Ends(|lines|), lines, max, matters);
    keep := Fill(keep, |lines|, max, ImportantStep(|lines|, max));
    selected := Ascending(keep, |lines|);
  }

  const MAX_FILES := 18
  const MAX_PER_FILE := 5

  function NonEmpty(lines: seq<string>): seq<string> {
    if lines == [] then []
    else NonEmpty(lines[..|lines| - 1]) + (if lines[|lines| - 1] != "" then [lines[|lines| - 1]] else [])
  }

  function Matches(lines: seq<string>, searchLine: string -> Option<Match>): seq<Match> {
    if lines == [] then []
    else
      var m := searchLine(lines[|lines| - 1]);
      Matches(lines[..|lines| - 1], searchLine) + (if m.Some? then [m.value] else [])
  }

  /** The files of some matches, in the order they are first seen. */
  function FilesOf(ms: seq<Match>): seq<string> {
    if ms == [] then []
    else
      var before, file := FilesOf(ms[..|ms| - 1]), ms[|ms| - 1].file;
      if file in before then before else before + [file]
  }

  function TextsOf(ms: seq<Match>, file: string): seq<string> {
    if ms == [] then []
    else TextsOf(ms[..|ms| - 1], file) + (if ms[|ms| - 1].file == file then [ms[|ms| - 1].text] else [])
  }

  function Indented(texts: seq<string>, selected: seq<nat>): seq<string>
    requires forall j :: 0 <= j < |selected| ==> selected[j] < |texts|
  {
    seq(|selected|, k requires 0 <= k < |selected| => "  " + texts[selected[k]])
  }

  function Chosen(texts: seq<string>, matters: string -> bool): (selected: seq<nat>)
    ensures forall j :: 0 <= j < |selected| ==> selected[j] < |texts|
  {
    AscendingForm(ImportantKeep(texts, MAX_PER_FILE, matters), |texts|);
    Ascending(ImportantKeep(texts, MAX_PER_FILE, matters), |texts|)
  }

  function MatchesNote(n: nat): string {
    "  ... " + Decimal(n) + " match(es) omitted in this file"
  }

  /** The block of one file: its name, the chosen matches, and a note on the others. */
  function FileBlock(file: string, texts: seq<string>, matters: string -> bool): seq<string> {
    var selected := Chosen(texts, matters);
    ["", file] + Indented(texts, selected) + OmittedMatches(|texts|, |selected|)
  }

  function OmittedMatches(all: nat, shown: nat): seq<string> {
    if all > shown then [MatchesNote(all - shown)] else []
  }

  /** The blocks of the first files. */
  function FileBlocks(ms: seq<Match>, files: seq<string>, matters: string -> bool): seq<seq<string>> {
    seq(Shown(files), k requires 0 <= k < Shown(files) => FileBlock(files[k], TextsOf(ms, files[k]), matters))
  }

  /** How many matches of the first `k` files are printed. */
  function Printed(ms: seq<Match>, files: seq<string>, matters: string -> bool, k: nat): nat
    requires k <= |files|
  {
    if k == 0 then 0
    else Printed(ms, files, matters, k - 1) + |Chosen(TextsOf(ms, files[k - 1]), matters)|
  }

  function Shown(files: seq<string>): nat {
    if |files| < MAX_FILES then |files| else MAX_FILES
  }

  function SearchHeader(lines: nat, files: nat): string {
    "[forge compressed search results: " + Decimal(lines) + " matches across " + Decimal(files) + " files]"
  }

  function FilesNote(n: nat): string {
    "... " + Decimal(n) + " file(s) omitted"
  }

  function OmittedFiles(files: seq<string>): seq<string> {
    if |files| > MAX_FILES then ["", FilesNote(|files| - MAX_FILES)] else []
  }

  /** What is printed around the blocks of the files. */
  function Framed(lines: nat, files: seq<string>, out: seq<string>): string {
    Join([SearchHeader(lines, |files|)] + out + OmittedFiles(files), "\n")
  }

  function SearchText(lines: nat, ms: seq<Match>, files: seq<string>, matters: string -> bool): string {
    Framed(lines, files, Flatten(FileBlocks(ms, files, matters)))
  }

  /** Of a text printed of matches, of which `kept` were printed, the bounded text; all other lines count as omitted. */
  function SearchBody(text: string, kept: nat, lines: nat, budget: nat): Compressed {
    Compressed(BoundText(text, budget), SearchResults, Some(if lines > kept then lines - kept else 0))
  }

  function SearchCompressed<V>(content: string, budget: nat, reader: Reader<V>): Compressed {
    var lines := NonEmpty(Split(content, '\n'));
    var ms := Matches(lines, reader.searchLine);
    if FilesOf(ms) == [] then Compressed(HeadTail(content, budget), SearchResults, None)
    else
      SearchBody(SearchText(|lines|, ms, FilesOf(ms), reader.matchMatters),
                 Printed(ms, FilesOf(ms), reader.matchMatters, Shown(FilesOf(ms))), |lines|, budget)
  }

  /** All that is printed of matches reaches the body exactly when it is short enough; else its middle is cut out. */
  lemma SearchWholeIff(text: string, kept: nat, lines: nat, budget: nat)
    ensures SearchBody(text, kept, lines, budget).content == BoundText(text, budget)
    ensures SearchBody(text, kept, lines, budget).content == text <==> |text| <= budget + 1200
    ensures kept <= lines ==> SearchBody(text, kept, lines, budget).omitted == Some(lines - kept)
  {
    BoundWholeIff(text, budget);
  }

  /** What is printed of matches: a header with both counts, the blocks of eighteen files, and how many more. */
  lemma SearchTextForm(lines: nat, ms: seq<Match>, files: seq<string>, matters: string -> bool)
    ensures SearchText(lines, ms, files, matters)
            == Join([SearchHeader(lines, |files|)] + Flatten(FileBlocks(ms, files, matters))
                    + (if |files| > 18 then ["", FilesNote(|files| - 18)] else []), "\n")
    ensures |FileBlocks(ms, files, matters)| == if |files| > 18 then 18 else |files|
    ensures forall k :: 0 <= k < |FileBlocks(ms, files, matters)| ==>
              FileBlocks(ms, files, matters)[k] == FileBlock(files[k], TextsOf(ms, files[k]), matters)
    ensures ParseDecimal(DigitPrefix(FilesNote(lines)[4..])) == lines
    ensures ParseDecimal(DigitPrefix(SearchHeader(lines, |files|)[34..])) == lines
    ensures ParseDecimal(DigitPrefix(SearchHeader(lines, |files|)[34 + |Decimal(lines)| + 16..])) == |files|
  {
    NoteReads("... ", lines, " file(s) omitted");
    TwoNumbersRead("[forge compressed search results: ", lines, " matches across ", |files|, " files]");
  }

  function One<T>(m: Option<T>): seq<T> {
    if m.Some? then [m.value] else []
  }

  /** Each line stands once and in its place among the lines that are not empty, ... */
  lemma {:induction false} NonEmptyEach(a: seq<string>, line: string, b: seq<string>)
    ensures NonEmpty(a + [line] + b) == NonEmpty(a) + (if line == "" then [] else [line]) + NonEmpty(b)
    decreases |b|
  {
    var all, one := a + [line] + b, if line == "" then [] else [line];
    if b == [] {
      assert all[..|all| - 1] == a && all[|all| - 1] == line;
      assert NonEmpty(all) + [] == NonEmpty(all);
    } else {
      var front, last := b[..|b| - 1], b[|b| - 1];
      NonEmptyEach(a, line, front);
      assert all[..|all| - 1] == a + [line] + front && all[|all| - 1] == last;
      ConcatAssoc(NonEmpty(a) + one, NonEmpty(front), if last != "" then [last] else []);
    }
  }

  lemma MatchesSnoc(lines: seq<string>, line: string, searchLine: string -> Option<Match>)
    ensures Matches(lines + [line], searchLine) == Matches(lines, searchLine) + One(searchLine(line))
  {
    assert (lines + [line])[..|lines|] == lines;
  }

  /** ... each match among those read from them, ... */
  lemma {:induction false} MatchesEach(a: seq<string>, line: string, b: seq<string>,
                                       searchLine: string -> Option<Match>)
    ensures Matches(a + [line] + b, searchLine)
            == Matches(a, searchLine) + One(searchLine(line)) + Matches(b, searchLine)
    decreases |b|
  {
    if b == [] {
      MatchesSnoc(a, line, searchLine);
      assert a + [line] + b == a + [line];
      assert Matches(a + [line], searchLine) + [] == Matches(a + [line], searchLine);
    } else {
      var front, last := b[..|b| - 1], b[|b| - 1];
      MatchesEach(a, line, front, searchLine);
      MatchesSnoc(a + [line] + front, last, searchLine);
      MatchesSnoc(front, last, searchLine);
      assert a + [line] + b == a + [line] + front + [last] && b == front + [last];
      ConcatAssoc(Matches(a, searchLine) + One(searchLine(line)), Matches(front, searchLine), One(searchLine(last)));
    }
  }

  /** ... and each text among those of its file. */
  lemma {:induction false} TextsEach(a: seq<Match>, m: Match, b: seq<Match>, file: string)
    ensures TextsOf(a + [m] + b, file)
            == TextsOf(a, file) + (if m.file == file then [m.text] else []) + TextsOf(b, file)
    decreases |b|
  {
    var all := a + [m] + b;
    if b == [] {
      assert all[..|all| - 1] == a && all[|all| - 1] == m;
      assert TextsOf(all, file) + [] == TextsOf(all, file);
    } else {
      var front, last := b[..|b| - 1], b[|b| - 1];
      TextsEach(a, m, front, file);
      assert all[..|all| - 1] == a + [m] + front && all[|all| - 1] == last;
      ConcatAssoc(TextsOf(a, file) + (if m.file == file then [m.text] else []), TextsOf(front, file),
                  if last.file == file then [last.text] else []);
    }
  }

  /** The files are those of the matches, each once, and further matches only put further files behind them. */
  lemma {:induction false} FilesForm(ms: seq<Match>, n: nat)
    requires n <= |ms|
    ensures FilesOf(ms[..n]) <= FilesOf(ms) && AllDiffer(FilesOf(ms))
    ensures forall f :: f in FilesOf(ms) <==> exists k :: 0 <= k < |ms| && ms[k].file == f
    decreases |ms|
  {
    FilesDiffer(ms);
    if ms != [] {
      var front := ms[..|ms| - 1];
      FilesForm(front, if n < |ms| then n else 0);
      assert forall k :: 0 <= k < |front| ==> front[k] == ms[k];
      if n < |ms| { assert front[..n] == ms[..n]; } else { assert ms[..n] == ms; }
    }
  }

  /** The block of a file: an empty line, its name, the chosen matches indented, and a note of how many are not. */
  lemma FileBlockForm(file: string, texts: seq<string>, matters: string -> bool)
    ensures var block := FileBlock(file, texts, matters);
            var selected := Ascending(ImportantKeep(texts, 5, matters), |texts|);
            && |block| == 2 + |selected| + (if |texts| > |selected| then 1 else 0)
            && block[0] == "" && block[1] == file
            && (forall k :: 0 <= k < |selected| ==> selected[k] < |texts| && block[2 + k] == "  " + texts[selected[k]])
            && (|texts| > |selected| ==>
                  ParseDecimal(DigitPrefix(block[|block| - 1][6..])) == |texts| - |selected|)
  {
    var selected := Chosen(texts, matters);
    if |texts| > |selected| {
      NoteReads("  ... ", |texts| - |selected|, " match(es) omitted in this file");
    }
  }

  ghost predicate Grouped(files: seq<string>, byFile: map<string, seq<string>>, ms: seq<Match>) {
    && files == FilesOf(ms) && (forall f :: f in files <==> f in byFile)
    && forall f :: f in byFile ==> byFile[f] == TextsOf(ms, f)
  }

  lemma GroupedSnoc(files: seq<string>, byFile: map<string, seq<string>>, ms: seq<Match>, m: Match)
    requires Grouped(files, byFile, ms)
    ensures var texts := if m.file in byFile then byFile[m.file] else [];
            Grouped(if m.file in byFile then files else files + [m.file], byFile[m.file := texts + [m.text]], ms + [m])
  {
    assert (ms + [m])[..|ms|] == ms;
    if m.file !in FilesOf(ms) { NoTexts(ms, m.file); }
    forall f
      ensures TextsOf(ms + [m], f) == TextsOf(ms, f) + (if m.file == f then [m.text] else [])
    {
    }
    assert forall f :: TextsOf(ms, f) + [] == TextsOf(ms, f);
  }

  /** The lines grouped by file, in the order of the Map. */
  method GroupByFile(lines: seq<string>, searchLine: string -> Option<Match>)
    returns (files: seq<string>, byFile: map<string, seq<string>>)
    ensures Grouped(files, byFile, Matches(lines, searchLine))
  {
    files, byFile := [], map[];
    for n := 0 to |lines|
      invariant Grouped(files, byFile, Matches(lines[..n], searchLine))
    {
      assert lines[..n + 1][..n] == lines[..n];
      var parsed := searchLine(lines[n]);
      if parsed.Some? {
        var m := parsed.value;
        GroupedSnoc(files, byFile, Matches(lines[..n], searchLine), m);
        var existing := if m.file in byFile then byFile[m.file] else [];
        if m.file !in byFile { files := files + [m.file]; }
        byFile := byFile[m.file := existing + [m.text]];
      } else {
        assert Matches(lines[..n], searchLine) + [] == Matches(lines[..n], searchLine);
      }
    }
    assert lines[..|lines|] == lines;
  }

  method PrintFile(file: string, texts: seq<string>, matters: string -> bool) returns (out: seq<string>, kept: nat)
    ensures out == FileBlock(file, texts, matters) && kept == |Chosen(texts, matters)|
  {
    var selected := SelectImportantLines(texts, MAX_PER_FILE, matters);
    AscendingForm(ImportantKeep(texts, MAX_PER_FILE, matters), |texts|);
    var printed: seq<string> := [];
    for k := 0 to |selected|
      invariant printed == Indented(texts, selected)[..k]
    {
      printed := printed + ["  " + texts[selected[k]]];
    }
    out := ["", file] + printed + OmittedMatches(|texts|, |selected|);
    kept := |selected|;
  }

  method PrintFiles(ghost ms: seq<Match>, files: seq<string>, byFile: map<string, seq<string>>, matters: string -> bool)
    returns (out: seq<string>, kept: nat)
    requires forall f :: f in files ==> f in byFile && byFile[f] == TextsOf(ms, f)
    ensures out == Flatten(FileBlocks(ms, files, matters))
    ensures kept == Printed(ms, files, matters, Shown(files))
  {
    out, kept := [], 0;
    ghost var blocks := FileBlocks(ms, files, matters);
    for fileCount := 0 to Shown(files)
      invariant out == Flatten(blocks[..fileCount]) && kept == Printed(ms, files, matters, fileCount)
    {
      assert blocks[..fileCount + 1][..fileCount] == blocks[..fileCount];
      var block, selected := PrintFile(files[fileCount], byFile[files[fileCount]], matters);
      out, kept := out + block, kept + selected;
    }
    assert blocks[..|blocks|] == blocks;
  }

  method PrintSearch(lines: nat, ghost ms: seq<Match>, files: seq<string>, byFile: map<string, seq<string>>,
                     matters: string -> bool)
    returns (text: string, kept: nat)
    requires Grouped(files, byFile, ms)
    ensures text == SearchText(lines, ms, FilesOf(ms), matters)
    ensures kept == Printed(ms, FilesOf(ms), matters, Shown(FilesOf(ms)))
  {
    var out;
    out, kept := PrintFiles(ms, files, byFile, matters);
    text := Framed(lines, files, out);
  }

  method CompressSearchResults<V>(content: string, budget: nat, reader: Reader<V>) returns (r: Compressed)
    ensures r == SearchCompressed(content, budget, reader)
  {
    var lines := NonEmpty(Split(content, '\n'));
    var files, byFile := GroupByFile(lines, reader.searchLine);
    if |files| == 0 {
      r := Compressed(HeadTail(content, budget), SearchResults, None);
    } else {
      var text, kept := PrintSearch(|lines|, Matches(lines, reader.searchLine), files, byFile, reader.matchMatters);
      r := Compressed(BoundText(text, budget), SearchResults, Some(if |lines| > kept then |lines| - kept else 0));
    }
  }

  /** The matches of the first `k` files. */
  function Total(ms: seq<Match>, files: seq<string>, k: nat): nat
    requires k <= |files|
  {
    if k == 0 then 0 else Total(ms, files, k - 1) + |TextsOf(ms, files[k - 1])|
  }

  /** The numbers in the notes of the first `k` files. */
  function NotedMatches(ms: seq<Match>, files: seq<string>, matters: string -> bool, k: nat): nat
    requires k <= |files|
  {
    if k == 0 then 0
    else
      var texts := TextsOf(ms, files[k - 1]);
      NotedMatches(ms, files, matters, k - 1)
      + (if |texts| > |Chosen(texts, matters)| then |texts| - |Chosen(texts, matters)| else 0)
  }

  ghost predicate AllDiffer(files: seq<string>) {
    forall j, k :: 0 <= j < k < |files| ==> files[j] != files[k]
  }

  lemma {:induction false} FilesDiffer(ms: seq<Match>)
    ensures AllDiffer(FilesOf(ms))
    decreases |ms|
  {
    if ms != [] { FilesDiffer(ms[..|ms| - 1]); }
  }

  lemma {:induction false} NoTexts(ms: seq<Match>, file: string)
    requires file !in FilesOf(ms)
    ensures TextsOf(ms, file) == []
    decreases |ms|
  {
    if ms != [] { NoTexts(ms[..|ms| - 1], file); }
  }

  lemma {:induction false} TotalSnoc(ms: seq<Match>, m: Match, files: seq<string>, k: nat)
    requires k <= |files| && AllDiffer(files)
    ensures Total(ms + [m], files, k) == Total(ms, files, k) + (if m.file in files[..k] then 1 else 0)
  {
    if k > 0 {
      TotalSnoc(ms, m, files, k - 1);
      assert (ms + [m])[..|ms|] == ms;
      assert files[..k] == files[..k - 1] + [files[k - 1]];
    }
  }

  lemma {:induction false} TotalPrefix(ms: seq<Match>, files: seq<string>, more: seq<string>, k: nat)
    requires k <= |files|
    ensures Total(ms, files + more, k) == Total(ms, files, k)
  {
    if k > 0 { TotalPrefix(ms, files, more, k - 1); }
  }

  lemma TotalGrows(ms: seq<Match>, m: Match, all: seq<string>)
    requires m.file in all && AllDiffer(all)
    ensures Total(ms + [m], all, |all|) == Total(ms, all, |all|) + 1
  {
    TotalSnoc(ms, m, all, |all|);
    assert all[..|all|] == all;
  }

  lemma FilesSnoc(ms: seq<Match>, m: Match)
    ensures FilesOf(ms + [m]) == if m.file in FilesOf(ms) then FilesOf(ms) else FilesOf(ms) + [m.file]
  {
    assert (ms + [m])[..|ms|] == ms;
  }

  /** One more match is one more of some file. */
  lemma TotalNext(ms: seq<Match>, m: Match, files: seq<string>, all: seq<string>)
    requires all == (if m.file in files then files else files + [m.file]) && AllDiffer(all)
    requires m.file !in files ==> TextsOf(ms, m.file) == []
    ensures Total(ms + [m], all, |all|) == Total(ms, files, |files|) + 1
  {
    if m.file !in files {
      TotalMore(ms, files, m.file);
      assert m.file in all by { assert all[|files|] == m.file; }
    }
    TotalGrows(ms, m, all);
  }

  lemma TotalMore(ms: seq<Match>, files: seq<string>, file: string)
    requires TextsOf(ms, file) == []
    ensures Total(ms, files + [file], |files| + 1) == Total(ms, files, |files|)
  {
    TotalPrefix(ms, files, [file], |files|);
  }

  /** The matches of all files are all matches. */
  lemma {:induction false} TotalIsAll(ms: seq<Match>, files: seq<string>)
    requires files == FilesOf(ms)
    ensures Total(ms, files, |files|) == |ms|
    decreases |ms|
  {
    if ms != [] {
      var front, last := ms[..|ms| - 1], ms[|ms| - 1];
      TotalIsAll(front, FilesOf(front));
      assert ms == front + [last];
      FilesSnoc(front, last);
      FilesDiffer(ms);
      if last.file !in FilesOf(front) { NoTexts(front, last.file); }
      TotalNext(front, last, FilesOf(front), files);
    }
  }

  lemma {:induction false} PrintedAndNoted(ms: seq<Match>, files: seq<string>, matters: string -> bool, k: nat)
    requires k <= |files|
    ensures Printed(ms, files, matters, k) + NotedMatches(ms, files, matters, k) == Total(ms, files, k)
    ensures Printed(ms, files, matters, k) <= MAX_PER_FILE * k
  {
    if k > 0 {
      PrintedAndNoted(ms, files, matters, k - 1);
      var texts := TextsOf(ms, files[k - 1]);
      ImportantForm(texts, MAX_PER_FILE, matters);
      AscendingSize(ImportantKeep(texts, MAX_PER_FILE, matters), |texts|);
      AscendingShort(ImportantKeep(texts, MAX_PER_FILE, matters), |texts|);
    }
  }

  /**
   At most five matches of a file are printed and the rest noted, so that with eighteen files
   or fewer the printed and the noted matches are all of them.
   */
  lemma SearchAccounts(ms: seq<Match>, matters: string -> bool)
    ensures var files := FilesOf(ms);
            && Printed(ms, files, matters, Shown(files)) <= 5 * Shown(files)
            && (Shown(files) == if |files| <= 18 then |files| else 18)
            && (|files| <= 18 ==>
                  Printed(ms, files, matters, |files|) + NotedMatches(ms, files, matters, |files|) == |ms|)
  {
    PrintedAndNoted(ms, FilesOf(ms), matters, Shown(FilesOf(ms)));
    TotalIsAll(ms, FilesOf(ms));
  }

  // ---------------------------------------------------------------- the dispatcher

  function CountMatches(lines: seq<string>, searchLine: string -> Option<Match>): nat {
    |Matches(lines, searchLine)|
  }

  /** Three matches among the first thirty lines. */
  predicate LooksLikeSearch(content: string, searchLine: string -> Option<Match>) {
    var lines := Split(content, '\n');
    CountMatches(if |lines| > 30 then lines[..30] else lines, searchLine) >= 3
  }

  function CompressedBy<V>(content: string, budget: nat, reader: Reader<V>): Compressed {
    var json := JsonCompressed(content, budget, reader);
    if json.Some? then json.value
    else if LooksLikeSearch(content, reader.searchLine) then SearchCompressed(content, budget, reader)
    else if reader.diffOrCode(content) then Compressed(HeadTail(content, budget), DiffOrCode, None)
    else if reader.log(content) then LogCompressed(content, budget, reader.lineMatters)
    else Compressed(HeadTail(content, budget), HeadAndTail, None)
  }

  lemma {:induction false} OneMatchMore(lines: seq<string>, searchLine: string -> Option<Match>, c: nat)
    ensures CountMatches(lines, searchLine) > c <==>
              exists k :: 0 <= k < |lines| && searchLine(lines[k]).Some? && CountMatches(lines[..k], searchLine) >= c
    decreases |lines|
  {
    if lines != [] {
      var front := lines[..|lines| - 1];
      OneMatchMore(front, searchLine, c);
      assert forall k :: 0 <= k < |front| ==> front[k] == lines[k] && front[..k] == lines[..k];
      if k :| 0 <= k < |front| && searchLine(front[k]).Some? && CountMatches(front[..k], searchLine) >= c {
        assert searchLine(lines[k]).Some? && CountMatches(lines[..k], searchLine) >= c;
      }
      if searchLine(lines[|lines| - 1]).Some? && CountMatches(front, searchLine) >= c {
        assert lines[..|lines| - 1] == front;
      }
    }
  }

  /** A content is taken for search results exactly when some three of its first thirty lines are matches. */
  lemma SearchLooksIff(content: string, searchLine: string -> Option<Match>)
    ensures LooksLikeSearch(content, searchLine) <==>
              var lines := Split(content, '\n');
              exists i, j, k :: 0 <= i < j < k < |lines| && k < 30
                && searchLine(lines[i]).Some? && searchLine(lines[j]).Some? && searchLine(lines[k]).Some?
  {
    var all := Split(content, '\n');
    var lines := if |all| > 30 then all[..30] else all;
    assert forall k :: 0 <= k < |lines| ==> lines[k] == all[k];
    OneMatchMore(lines, searchLine, 2);
    forall k | 0 <= k < |lines|
      ensures CountMatches(lines[..k], searchLine) >= 2 <==>
                exists i, j :: 0 <= i < j < k && searchLine(lines[i]).Some? && searchLine(lines[j]).Some?
    {
      TwoMatches(lines, searchLine, k);
    }
  }

  lemma TwoMatches(lines: seq<string>, searchLine: string -> Option<Match>, n: nat)
    requires n <= |lines|
    ensures CountMatches(lines[..n], searchLine) >= 2 <==>
              exists i, j :: 0 <= i < j < n && searchLine(lines[i]).Some? && searchLine(lines[j]).Some?
  {
    OneMatchMore(lines[..n], searchLine, 1);
    forall j | 0 <= j < n
      ensures CountMatches(lines[..n][..j], searchLine) >= 1 <==> exists i :: 0 <= i < j && searchLine(lines[i]).Some?
    {
      assert lines[..n][..j] == lines[..j];
      OneMatchMore(lines[..j], searchLine, 0);
    }
  }

  /** What a content is taken for, and what becomes of it: each attempt is made when those before it fail. */
  lemma StrategyIff<V>(content: string, budget: nat, reader: Reader<V>)
    ensures var r := CompressedBy(content, budget, reader);
            var parsed, search := reader.parse(content), LooksLikeSearch(content, reader.searchLine);
            var json := parsed.Some? && |parsed.value| >= 6 && |JsonText(parsed.value, budget, reader)| < |content|;
            && (r.strategy.JsonArray? <==> json)
            && (r.strategy.SearchResults? <==> !json && search)
            && (r.strategy.DiffOrCode? <==> !json && !search && reader.diffOrCode(content))
            && (r.strategy.Log? <==> !json && !search && !reader.diffOrCode(content) && reader.log(content))
            && (r.strategy.DiffOrCode? || r.strategy.HeadAndTail? ==> r.content == HeadTail(content, budget))
            && (r.strategy.Log? ==> r == LogCompressed(content, budget, reader.lineMatters))
            && (r.strategy.SearchResults? ==>
                  var lines := NonEmpty(Split(content, '\n'));
                  var ms := Matches(lines, reader.searchLine);
                  if ms == [] then r.content == HeadTail(content, budget)
                  else r == SearchBody(SearchText(|lines|, ms, FilesOf(ms), reader.matchMatters),
                                       Printed(ms, FilesOf(ms), reader.matchMatters, Shown(FilesOf(ms))),
                                       |lines|, budget))
  {
  }

  method CompressByContentType<V>(content: string, budget: nat, reader: Reader<V>) returns (r: Compressed)
    ensures r == CompressedBy(content, budget, reader)
  {
    var json := CompressJsonArray(content, budget, reader);
    if json.Some? { return json.value; }
    if LooksLikeSearch(content, reader.searchLine) {
      r := CompressSearchResults(content, budget, reader);
    } else if reader.diffOrCode(content) {
      r := Compressed(HeadTail(content, budget), DiffOrCode, None);
    } else if reader.log(content) {
      r := CompressLog(content, budget, reader.lineMatters);
    } else {
      r := Compressed(HeadTail(content, budget), HeadAndTail, None);
    }
  }

  /** Whatever the content is taken for, the body is within budget + 1200 characters for every budget of at least 5. */
  lemma EveryBodyBounded<V>(content: string, budget: nat, reader: Reader<V>)
    requires budget >= 5 && |Decimal(Omitted(content, budget))| <= 20
    ensures |CompressedBy(content, budget, reader).content| <= budget + 1200
  {
    HeadTailBounded(content, budget);
    if JsonCompressed(content, budget, reader).Some? {
      var items := reader.parse(content).value;
      BoundTextIff(reader.render(items, Ascending(JsonKeep(items, reader.notable, budget), |items|)), budget);
    } else if LooksLikeSearch(content, reader.searchLine) {
      var lines := NonEmpty(Split(content, '\n'));
      var ms := Matches(lines, reader.searchLine);
      BoundTextIff(SearchText(|lines|, ms, FilesOf(ms), reader.matchMatters), budget);
    } else {
      var lines := Split(content, '\n');
      SelectedForm(lines, reader.lineMatters, budget);
      var selected := LogSelected(lines, reader.lineMatters, budget);
      BoundTextIff(Join([LogHeader(|lines|, |selected|)] + LogLines(lines, selected, |selected|), "\n"), budget);
    }
  }
}
