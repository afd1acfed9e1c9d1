/**
 The three incremental stream parsers (packages/forge-provider/src/base.ts:60-164),
 over decoded chunks of text. `JSON.parse` is a partial function given from outside;
 what a generator yields is appended to the result.
 */
module StreamParsers {
  import opened Text

  // ---------------------------------------------------------------- lines

  function Lines(text: string): (lines: seq<string>)
    ensures |lines| >= 1
  {
    Split(text, '\n')
  }

  /** The lines that have ended. */
  function Complete(text: string): seq<string> {
    Front(Lines(text))
  }

  /** The line that has not. */
  function Rest(text: string): string {
    End(Lines(text))
  }

  function Concat(chunks: seq<string>): string {
    if chunks == [] then "" else chunks[0] + Concat(chunks[1..])
  }

  /** More text only ever touches the line that has not ended. */
  lemma LinesConcat(a: string, b: string)
    ensures Lines(a + b) == Complete(a) + Lines(Rest(a) + b)
    ensures Complete(a + b) == Complete(a) + Complete(Rest(a) + b)
    ensures '\n' !in Rest(a)
  {
    SplitFromConcat("", a, b, '\n');
    RestPlain(a);
    RestLines(Rest(a), b);
  }

  lemma RestPlain(a: string)
    ensures '\n' !in Rest(a)
  {
    SplitJoins("", a, '\n');
  }

  lemma RestLines(rest: string, b: string)
    requires '\n' !in rest
    ensures Lines(rest + b) == SplitFrom(rest, b, '\n')
  {
    SplitFromPlain("", rest, '\n');
    assert "" + rest == rest;
    SplitFromConcat("", rest, b, '\n');
    assert Front([rest]) == [];
  }

  /** The text still to be split when the chunks before the i-th are consumed. */
  lemma NextChunk(buffer: string, chunks: seq<string>, i: nat)
    requires i < |chunks|
    ensures buffer + Concat(chunks[i..]) == buffer + chunks[i] + Concat(chunks[i + 1..])
  {
    assert chunks[i..][1..] == chunks[i + 1..];
    ConcatAssoc(buffer, chunks[i], Concat(chunks[i + 1..]));
  }

  lemma NoChunk(buffer: string, chunks: seq<string>)
    requires '\n' !in buffer
    ensures Lines(buffer + Concat(chunks[|chunks|..])) == [buffer]
    ensures Complete(buffer + Concat(chunks[|chunks|..])) == []
  {
    assert chunks[|chunks|..] == [] && buffer + "" == buffer && "" + buffer == buffer;
    SplitFromPlain("", buffer, '\n');
  }

  // ---------------------------------------------------------------- server-sent events

  /** The payload of a `data: ` line. */
  function Data(line: string): Option<string> {
    var trimmed := Trim(line);
    if trimmed == "" || ":" <= trimmed then None
    else if "data: " <= trimmed then Some(trimmed[6..])
    else None
  }

  function Emitted<V>(data: Option<string>, parse: string -> Option<V>): seq<V> {
    if data.None? || parse(data.value).None? then [] else [parse(data.value).value]
  }

  /** What the lines of a whole stream yield, up to `[DONE]`. */
  function Events<V>(lines: seq<string>, parse: string -> Option<V>): seq<V> {
    if lines == [] || Data(lines[0]) == Some("[DONE]") then []
    else Emitted(Data(lines[0]), parse) + Events(lines[1..], parse)
  }

  /** One of the lines ends the stream. */
  predicate Ends(lines: seq<string>) {
    lines != [] && (Data(lines[0]) == Some("[DONE]") || Ends(lines[1..]))
  }

  lemma {:induction false} EventsConcat<V>(xs: seq<string>, ys: seq<string>, parse: string -> Option<V>)
    ensures Events(xs + ys, parse) == Events(xs, parse) + (if Ends(xs) then [] else Events(ys, parse))
    decreases |xs|
  {
    if xs == [] {
      assert xs + ys == ys;
    } else {
      assert (xs + ys)[1..] == xs[1..] + ys;
      EventsConcat(xs[1..], ys, parse);
    }
  }

  /** The outer loop, chunk by chunk. */
  ghost function EventsByChunk<V>(buffer: string, chunks: seq<string>, i: nat, parse: string -> Option<V>): seq<V>
    requires i <= |chunks|
    decreases |chunks| - i
  {
    if i == |chunks| then Events([buffer], parse)
    else
      var parts := Complete(buffer + chunks[i]);
      Events(parts, parse)
      + if Ends(parts) then [] else EventsByChunk(Rest(buffer + chunks[i]), chunks, i + 1, parse)
  }

  lemma {:induction false} ByChunkIsWhole<V>(buffer: string, chunks: seq<string>, i: nat, parse: string -> Option<V>)
    requires i <= |chunks| && '\n' !in buffer
    ensures EventsByChunk(buffer, chunks, i, parse) == Events(Lines(buffer + Concat(chunks[i..])), parse)
    decreases |chunks| - i
  {
    if i == |chunks| {
      NoChunk(buffer, chunks);
    } else {
      var text, later := buffer + chunks[i], Concat(chunks[i + 1..]);
      NextChunk(buffer, chunks, i);
      LinesConcat(text, later);
      ByChunkIsWhole(Rest(text), chunks, i + 1, parse);
      EventsConcat(Complete(text), Lines(Rest(text) + later), parse);
    }
  }

  /** The inner loop, over the lines a chunk completes. */
  method SseLines<V>(lines: seq<string>, parse: string -> Option<V>) returns (out: seq<V>, done: bool)
    ensures out == Events(lines, parse) && done == Ends(lines)
  {
    out := [];
    assert lines[0..] == lines;
    for j := 0 to |lines|
      invariant out + Events(lines[j..], parse) == Events(lines, parse)
      invariant Ends(lines[j..]) == Ends(lines)
    {
      assert lines[j..][1..] == lines[j + 1..];
      var emitted, ends := SseLine(lines[j], parse);
      if ends { return out, true; }
      ConcatAssoc(out, emitted, Events(lines[j + 1..], parse));
      out := out + emitted;
    }
    done := false;
  }

  /** One complete line: blank lines and comments are passed over, and so are data that do not parse. */
  method SseLine<V>(line: string, parse: string -> Option<V>) returns (emitted: seq<V>, ends: bool)
    ensures ends <==> Data(line) == Some("[DONE]")
    ensures !ends ==> emitted == Emitted(Data(line), parse)
  {
    var trimmed := Trim(line);
    if trimmed == "" || ":" <= trimmed { return [], false; }
    if !("data: " <= trimmed) { return [], false; }
    var data := trimmed[6..];
    if data == "[DONE]" { return [], true; }
    var parsed := parse(data);
    emitted, ends := if parsed.Some? then [parsed.value] else [], false;
  }

  /** The line without a line end is read like any other. */
  lemma LastLine<V>(line: string, parse: string -> Option<V>)
    ensures Events([line], parse)
         == if "data: " <= Trim(line) && Trim(line)[6..] != "[DONE]" && parse(Trim(line)[6..]).Some?
            then [parse(Trim(line)[6..]).value] else []
  {
    assert [line][1..] == [];
    if "data: " <= Trim(line) {
      assert Trim(line)[0] == 'd';
    }
  }

  method ParseSSE<V>(chunks: seq<string>, parse: string -> Option<V>) returns (out: seq<V>)
    ensures out == Events(Lines(Concat(chunks)), parse)
  {
    out := [];
    var buffer := "";
    ByChunkIsWhole("", chunks, 0, parse);
    assert "" + Concat(chunks) == Concat(chunks) && chunks[0..] == chunks;
    for i := 0 to |chunks|
      invariant out + EventsByChunk(buffer, chunks, i, parse) == Events(Lines(Concat(chunks)), parse)
    {
      buffer := buffer + chunks[i];
      var parts := Complete(buffer);
      buffer := Rest(buffer);
      var events, done := SseLines(parts, parse);
      ConcatAssoc(out, events, EventsByChunk(buffer, chunks, i + 1, parse));
      out := out + events;
      if done { return; }
    }
    LastLine(buffer, parse);
    var trimmed := Trim(buffer);
    if trimmed != "" {
      if "data: " <= trimmed {
        var data := trimmed[6..];
        if data != "[DONE]" {
          var parsed := parse(data);
          if parsed.Some? { out := out + [parsed.value]; }
        }
      }
    }
  }

  // ---------------------------------------------------------------- Anthropic events

  datatype Line = Blank | Name(name: string) | Payload(data: string) | Other

  function Classify(line: string): Line {
    var trimmed := Trim(line);
    if trimmed == "" then Blank
    else if "event: " <= trimmed then Name(trimmed[7..])
    else if "data: " <= trimmed then Payload(trimmed[6..])
    else Other
  }

  datatype Event<V> = Event(name: string, data: V)

  function Named<V>(name: string, data: string, parse: string -> Option<V>): seq<Event<V>> {
    if parse(data).None? then [] else [Event(name, parse(data).value)]
  }

  /** What complete lines yield when `pending` is the event name read last. */
  function NamedEvents<V>(pending: string, lines: seq<string>, parse: string -> Option<V>): seq<Event<V>>
    decreases |lines|
  {
    if lines == [] then []
    else
      match Classify(lines[0])
      case Name(name) => NamedEvents(name, lines[1..], parse)
      case Payload(data) => Named(pending, data, parse) + NamedEvents("", lines[1..], parse)
      case _ => NamedEvents(pending, lines[1..], parse)
  }

  /** The event name pending once the lines are read. */
  function PendingAfter(pending: string, lines: seq<string>): string
    decreases |lines|
  {
    if lines == [] then pending
    else
      match Classify(lines[0])
      case Name(name) => PendingAfter(name, lines[1..])
      case Payload(data) => PendingAfter("", lines[1..])
      case _ => PendingAfter(pending, lines[1..])
  }

  lemma {:induction false} NamedConcat<V>(pending: string, xs: seq<string>, ys: seq<string>, parse: string -> Option<V>)
    ensures NamedEvents(pending, xs + ys, parse)
         == NamedEvents(pending, xs, parse) + NamedEvents(PendingAfter(pending, xs), ys, parse)
    decreases |xs|
  {
    if xs == [] {
      assert xs + ys == ys;
    } else {
      assert (xs + ys)[1..] == xs[1..] + ys;
      match Classify(xs[0])
      case Name(name) => NamedConcat(name, xs[1..], ys, parse);
      case Payload(data) =>
        NamedConcat("", xs[1..], ys, parse);
        ConcatAssoc(Named(pending, data, parse), NamedEvents("", xs[1..], parse),
                    NamedEvents(PendingAfter("", xs[1..]), ys, parse));
      case _ => NamedConcat(pending, xs[1..], ys, parse);
    }
  }

  ghost function NamedByChunk<V>(pending: string, buffer: string, chunks: seq<string>, i: nat,
                                 parse: string -> Option<V>): seq<Event<V>>
    requires i <= |chunks|
    decreases |chunks| - i
  {
    if i == |chunks| then []
    else
      var lines := Complete(buffer + chunks[i]);
      NamedEvents(pending, lines, parse)
      + NamedByChunk(PendingAfter(pending, lines), Rest(buffer + chunks[i]), chunks, i + 1, parse)
  }

  lemma {:induction false} NamedByChunkIsWhole<V>(pending: string, buffer: string, chunks: seq<string>, i: nat,
                                                  parse: string -> Option<V>)
    requires i <= |chunks| && '\n' !in buffer
    ensures NamedByChunk(pending, buffer, chunks, i, parse)
         == NamedEvents(pending, Complete(buffer + Concat(chunks[i..])), parse)
    decreases |chunks| - i
  {
    if i == |chunks| {
      NoChunk(buffer, chunks);
    } else {
      var text, later := buffer + chunks[i], Concat(chunks[i + 1..]);
      NextChunk(buffer, chunks, i);
      LinesConcat(text, later);
      NamedByChunkIsWhole(PendingAfter(pending, Complete(text)), Rest(text), chunks, i + 1, parse);
      NamedConcat(pending, Complete(text), Complete(Rest(text) + later), parse);
    }
  }

  /** The inner loop, over the lines a chunk completes. */
  method AnthropicLines<V>(pending: string, lines: seq<string>, parse: string -> Option<V>)
    returns (out: seq<Event<V>>, currentEvent: string)
    ensures out == NamedEvents(pending, lines, parse) && currentEvent == PendingAfter(pending, lines)
  {
    out, currentEvent := [], pending;
    assert lines[0..] == lines;
    for j := 0 to |lines|
      invariant out + NamedEvents(currentEvent, lines[j..], parse) == NamedEvents(pending, lines, parse)
      invariant PendingAfter(currentEvent, lines[j..]) == PendingAfter(pending, lines)
    {
      var line := lines[j];
      assert lines[j..][1..] == lines[j + 1..];
      var trimmed := Trim(line);
      if trimmed == "" { continue; }
      if "event: " <= trimmed {
        currentEvent := trimmed[7..];
      } else if "data: " <= trimmed {
        var data := trimmed[6..];
        ConcatAssoc(out, Named(currentEvent, data, parse), NamedEvents("", lines[j + 1..], parse));
        var parsed := parse(data);
        if parsed.Some? { out := out + [Event(currentEvent, parsed.value)]; }
        currentEvent := "";
      }
    }
  }

  method ParseAnthropicEventStream<V>(chunks: seq<string>, parse: string -> Option<V>) returns (out: seq<Event<V>>)
    ensures out == NamedEvents("", Complete(Concat(chunks)), parse)
  {
    out := [];
    var buffer, currentEvent := "", "";
    NamedByChunkIsWhole("", "", chunks, 0, parse);
    assert "" + Concat(chunks) == Concat(chunks) && chunks[0..] == chunks;
    for i := 0 to |chunks|
      invariant out + NamedByChunk(currentEvent, buffer, chunks, i, parse)
             == NamedEvents("", Complete(Concat(chunks)), parse)
    {
      buffer := buffer + chunks[i];
      var lines := Complete(buffer);
      buffer := Rest(buffer);
      var events, pending := AnthropicLines(currentEvent, lines, parse);
      ConcatAssoc(out, events, NamedByChunk(pending, buffer, chunks, i + 1, parse));
      out, currentEvent := out + events, pending;
    }
  }

  /** A name line sets the pending name, a payload line uses it up, and others leave it. */
  function NameAfter(pending: string, line: string): string {
    match Classify(line)
    case Name(name) => name
    case Payload(data) => ""
    case _ => pending
  }

  /** The last `event: ` line since the `data: ` line before the k-th line, looking back from it. */
  function NameBefore(lines: seq<string>, k: nat): string
    requires k <= |lines|
  {
    if k == 0 then "" else NameAfter(NameBefore(lines, k - 1), lines[k - 1])
  }

  /** The events of the payload lines one by one, each under the name found by looking back. */
  function NamedByLine<V>(lines: seq<string>, n: nat, parse: string -> Option<V>): seq<Event<V>>
    requires n <= |lines|
  {
    if n == 0 then []
    else
      NamedByLine(lines, n - 1, parse) + LineEvents(NameBefore(lines, n - 1), lines[n - 1], parse)
  }

  /** What one line yields under a given event name. */
  function LineEvents<V>(name: string, line: string, parse: string -> Option<V>): seq<Event<V>> {
    match Classify(line) case Payload(data) => Named(name, data, parse) case _ => []
  }

  /**
   Every payload line yields its event under the most recent event name read since the
   payload line before it, or under the empty name, wherever the chunk borders fall.
   */
  lemma {:induction false} EventNames<V>(lines: seq<string>, parse: string -> Option<V>)
    ensures NamedEvents("", lines, parse) == NamedByLine(lines, |lines|, parse)
    ensures PendingAfter("", lines) == NameBefore(lines, |lines|)
    decreases |lines|
  {
    if lines != [] {
      var front, line := lines[..|lines| - 1], lines[|lines| - 1];
      EventNames(front, parse);
      NamedNext(front, line, parse);
      ByLineNext(front, line, parse);
      assert lines == front + [line];
    }
  }

  lemma {:induction false} ByLineSame<V>(lines: seq<string>, more: seq<string>, n: nat, parse: string -> Option<V>)
    requires lines <= more && n <= |lines|
    ensures NamedByLine(more, n, parse) == NamedByLine(lines, n, parse) && NameBefore(more, n) == NameBefore(lines, n)
  {
    if n > 0 {
      ByLineSame(lines, more, n - 1, parse);
      assert more[n - 1] == lines[n - 1];
    }
  }

  lemma ByLineNext<V>(front: seq<string>, line: string, parse: string -> Option<V>)
    ensures var n := |front|;
            && NamedByLine(front + [line], n + 1, parse)
               == NamedByLine(front, n, parse) + LineEvents(NameBefore(front, n), line, parse)
            && NameBefore(front + [line], n + 1) == NameAfter(NameBefore(front, n), line)
  {
    ByLineSame(front, front + [line], |front|, parse);
  }

  lemma NamedNext<V>(front: seq<string>, line: string, parse: string -> Option<V>)
    ensures NamedEvents("", front + [line], parse)
         == NamedEvents("", front, parse) + LineEvents(PendingAfter("", front), line, parse)
    ensures PendingAfter("", front + [line]) == NameAfter(PendingAfter("", front), line)
  {
    NamedConcat("", front, [line], parse);
    PendingConcat("", front, line);
    OneLine(PendingAfter("", front), line, parse);
  }

  lemma OneLine<V>(pending: string, line: string, parse: string -> Option<V>)
    ensures NamedEvents(pending, [line], parse) == LineEvents(pending, line, parse)
    ensures PendingAfter(pending, [line])
         == if Classify(line).Name? then Classify(line).name
            else if Classify(line).Payload? then "" else pending
  {
    assert [line][1..] == [];
  }

  lemma {:induction false} PendingConcat(pending: string, xs: seq<string>, y: string)
    ensures PendingAfter(pending, xs + [y]) == PendingAfter(PendingAfter(pending, xs), [y])
    decreases |xs|
  {
    if xs == [] {
      assert xs + [y] == [y];
    } else {
      assert (xs + [y])[1..] == xs[1..] + [y];
      match Classify(xs[0])
      case Name(name) => PendingConcat(name, xs[1..], y);
      case Payload(data) => PendingConcat("", xs[1..], y);
      case _ => PendingConcat(pending, xs[1..], y);
    }
  }

  // ---------------------------------------------------------------- what is sent is read

  /** What a line means, said of the line without the spaces around it. */
  lemma LineMeaning(line: string, text: string)
    ensures Classify(line) == Name(text) <==> Trim(line) == "event: " + text
    ensures Classify(line) == Payload(text) <==> Trim(line) == "data: " + text
    ensures Classify(line) == Blank <==> Trim(line) == ""
    ensures Data(line) == Some(text) <==> Trim(line) == "data: " + text
  {
    Prefixed(Trim(line), "event: ", text);
    Prefixed(Trim(line), "data: ", text);
    if Trim(line) != "" { assert "event: "[0] == 'e' && "data: "[0] == 'd'; }
  }

  /** What a line does, in any of the three formats, said of the line without the spaces around it. */
  lemma LineYields<V>(name: string, line: string, parse: string -> Option<V>)
    ensures var t := Trim(line);
            && LineEvents(name, line, parse)
               == (if "data: " <= t && parse(t[6..]).Some? then [Event(name, parse(t[6..]).value)] else [])
            && NameAfter(name, line) == (if "event: " <= t then t[7..] else if "data: " <= t then "" else name)
            && JsonLine(line, parse) == (if t != "" && parse(t).Some? then [parse(t).value] else [])
  {
    var t := Trim(line);
    if "data: " <= t { assert t[0] == 'd'; }
    if "event: " <= t { assert t[0] == 'e'; }
  }

  lemma Prefixed(s: string, prefix: string, text: string)
    ensures s == prefix + text <==> prefix <= s && s[|prefix|..] == text
  {
  }

  /** Some lines, each with its line break. */
  function Printed(lines: seq<string>): string {
    if lines == [] then "" else Printed(lines[..|lines| - 1]) + (lines[|lines| - 1] + "\n")
  }

  predicate Unbroken(lines: seq<string>) {
    forall k :: 0 <= k < |lines| ==> '\n' !in lines[k]
  }

  lemma BrokenLine(line: string)
    requires '\n' !in line
    ensures Complete(line + "\n") == [line] && Rest(line + "\n") == ""
  {
    RestLines(line, "\n");
    assert "\n"[1..] == "";
  }

  lemma {:induction false} PrintedLines(lines: seq<string>)
    requires Unbroken(lines)
    ensures Complete(Printed(lines)) == lines && Rest(Printed(lines)) == ""
    decreases |lines|
  {
    if lines != [] {
      var front, last := lines[..|lines| - 1], lines[|lines| - 1];
      PrintedLines(front);
      BrokenLine(last);
      LinesConcat(Printed(front), last + "\n");
      assert "" + (last + "\n") == last + "\n" && lines == front + [last];
      RestConcat(Printed(front), last + "\n");
    }
  }

  lemma RestConcat(a: string, b: string)
    ensures Rest(a + b) == Rest(Rest(a) + b)
  {
    LinesConcat(a, b);
  }

  /** The lines of printed text, the one without a line break included. */
  lemma PrintedAll(lines: seq<string>)
    requires Unbroken(lines)
    ensures Lines(Printed(lines)) == lines + [""]
  {
    PrintedLines(lines);
    assert Lines(Printed(lines)) == Complete(Printed(lines)) + [Rest(Printed(lines))];
  }

  /** A text that fits on a line as it is. */
  predicate Sendable(text: string) {
    text != "" && Trimmed(text) && '\n' !in text
  }

  ghost predicate AllSendable(texts: seq<string>) {
    forall k :: 0 <= k < |texts| ==> Sendable(texts[k])
  }

  lemma FieldTrims(field: string, text: string)
    requires field != "" && !IsSpace(field[0]) && '\n' !in field && Sendable(text)
    ensures Trim(field + text) == field + text && '\n' !in field + text
  {
    assert (field + text)[|field + text| - 1] == text[|text| - 1];
    TrimmedFixed(field + text);
  }

  function NameLine(name: string): string { "event: " + name }

  function DataLine(data: string): string { "data: " + data }

  lemma FieldsRead(text: string)
    requires Sendable(text)
    ensures Classify(NameLine(text)) == Name(text) && '\n' !in NameLine(text)
    ensures Classify(DataLine(text)) == Payload(text) && Data(DataLine(text)) == Some(text) && '\n' !in DataLine(text)
    ensures Classify("") == Blank && Data("") == None
  {
    FieldTrims("event: ", text);
    FieldTrims("data: ", text);
    LineMeaning(NameLine(text), text);
    LineMeaning(DataLine(text), text);
    assert Trim("") == "";
  }

  /** Events as an endpoint sends them: for each its name, its data, and an empty line. */
  function EventLines(names: seq<string>, datas: seq<string>): seq<string>
    requires |names| == |datas|
  {
    if names == [] then []
    else
      var n := |names| - 1;
      EventLines(names[..n], datas[..n]) + [NameLine(names[n]), DataLine(datas[n]), ""]
  }

  /** What was sent is what is read; data that do not parse are left out by the parsers. */
  ghost predicate AreRead<V>(out: seq<V>, datas: seq<string>, parse: string -> Option<V>) {
    |out| == |datas| && forall k :: 0 <= k < |out| ==> parse(datas[k]) == Some(out[k])
  }

  ghost predicate AreEvents<V>(out: seq<Event<V>>, names: seq<string>, datas: seq<string>, parse: string -> Option<V>) {
    && |out| == |names| == |datas|
    && forall k :: 0 <= k < |out| ==> out[k].name == names[k] && parse(datas[k]) == Some(out[k].data)
  }

  ghost predicate AllParse<V>(datas: seq<string>, parse: string -> Option<V>) {
    forall k :: 0 <= k < |datas| ==> parse(datas[k]).Some?
  }

  lemma ThreeLines<V>(a: string, b: string, c: string, name: string, data: string, parse: string -> Option<V>)
    requires Classify(a) == Name(name) && Classify(b) == Payload(data) && Classify(c) == Blank
    ensures NamedEvents("", [a, b, c], parse) == Named(name, data, parse) && PendingAfter("", [a, b, c]) == ""
  {
    assert [a] + [b, c] == [a, b, c] && [b] + [c] == [b, c];
    OneLine("", a, parse);
    OneLine(name, b, parse);
    OneLine("", c, parse);
    NamedConcat("", [a], [b, c], parse);
    NamedConcat(name, [b], [c], parse);
    PendingOver("", [a], [b, c]);
    PendingOver(name, [b], [c]);
  }

  lemma {:induction false} PendingOver(pending: string, xs: seq<string>, ys: seq<string>)
    ensures PendingAfter(pending, xs + ys) == PendingAfter(PendingAfter(pending, xs), ys)
    decreases |ys|
  {
    if ys == [] {
      assert xs + ys == xs;
    } else {
      var front, last := ys[..|ys| - 1], ys[|ys| - 1];
      PendingOver(pending, xs, front);
      PendingConcat(pending, xs + front, last);
      PendingConcat(PendingAfter(pending, xs), front, last);
      assert xs + ys == xs + front + [last] && ys == front + [last];
    }
  }

  /** Some lines that name no event at their end, and what they yield. */
  ghost predicate Yield<V>(lines: seq<string>, names: seq<string>, datas: seq<string>, parse: string -> Option<V>) {
    Unbroken(lines) && PendingAfter("", lines) == "" && AreEvents(NamedEvents("", lines, parse), names, datas, parse)
  }

  lemma YieldMore<V>(lines: seq<string>, names: seq<string>, datas: seq<string>, name: string, data: string,
                     parse: string -> Option<V>)
    requires Yield(lines, names, datas, parse) && Sendable(name) && Sendable(data) && parse(data).Some?
    ensures Yield(lines + [NameLine(name), DataLine(data), ""], names + [name], datas + [data], parse)
  {
    var more := [NameLine(name), DataLine(data), ""];
    FieldsRead(name);
    FieldsRead(data);
    ThreeLines(NameLine(name), DataLine(data), "", name, data, parse);
    NamedConcat("", lines, more, parse);
    PendingOver("", lines, more);
  }

  lemma {:induction false} EventLinesRead<V>(names: seq<string>, datas: seq<string>, parse: string -> Option<V>)
    requires |names| == |datas| && AllSendable(names) && AllSendable(datas) && AllParse(datas, parse)
    ensures Yield(EventLines(names, datas), names, datas, parse)
    decreases |names|
  {
    if names != [] {
      var n := |names| - 1;
      EventLinesRead(names[..n], datas[..n], parse);
      YieldMore(EventLines(names[..n], datas[..n]), names[..n], datas[..n], names[n], datas[n], parse);
      assert names[..n] + [names[n]] == names && datas[..n] + [datas[n]] == datas;
    }
  }

  /** Events sent so are what is read, each under its name, wherever the chunk borders fall. */
  lemma EventsReadBack<V>(names: seq<string>, datas: seq<string>, parse: string -> Option<V>, chunks: seq<string>)
    requires |names| == |datas| && AllSendable(names) && AllSendable(datas) && AllParse(datas, parse)
    requires Concat(chunks) == Printed(EventLines(names, datas))
    ensures AreEvents(NamedEvents("", Complete(Concat(chunks)), parse), names, datas, parse)
  {
    EventLinesRead(names, datas, parse);
    PrintedLines(EventLines(names, datas));
  }

  /** Server-sent events: for each its data and an empty line. */
  function DataLines(datas: seq<string>): seq<string> {
    if datas == [] then [] else DataLines(datas[..|datas| - 1]) + [DataLine(datas[|datas| - 1]), ""]
  }

  lemma NoData<V>(line: string, parse: string -> Option<V>)
    requires Data(line) == None
    ensures Events([line], parse) == [] && !Ends([line])
  {
    assert [line][1..] == [] && !Ends([line][1..]);
  }

  lemma TwoLines<V>(a: string, b: string, data: string, parse: string -> Option<V>)
    requires Data(a) == Some(data) && data != "[DONE]" && Data(b) == None
    ensures Events([a, b], parse) == Emitted(Some(data), parse) && !Ends([a, b])
  {
    var ab, last := [a, b], [b];
    assert ab[1..] == last;
    NoData(b, parse);
    assert Events(ab, parse) == Emitted(Some(data), parse) + [];
  }

  lemma {:induction false} EndsConcat(xs: seq<string>, ys: seq<string>)
    ensures Ends(xs + ys) <==> Ends(xs) || Ends(ys)
    decreases |xs|
  {
    if xs == [] {
      assert xs + ys == ys;
    } else {
      assert (xs + ys)[1..] == xs[1..] + ys;
      EndsConcat(xs[1..], ys);
    }
  }

  lemma {:induction false} DataLinesRead<V>(datas: seq<string>, parse: string -> Option<V>)
    requires AllSendable(datas) && AllParse(datas, parse) && "[DONE]" !in datas
    ensures Unbroken(DataLines(datas)) && !Ends(DataLines(datas))
    ensures AreRead(Events(DataLines(datas), parse), datas, parse)
    decreases |datas|
  {
    if datas != [] {
      var front, last := datas[..|datas| - 1], datas[|datas| - 1];
      DataLinesRead(front, parse);
      FieldsRead(last);
      TwoLines(DataLine(last), "", last, parse);
      EventsConcat(DataLines(front), [DataLine(last), ""], parse);
      EndsConcat(DataLines(front), [DataLine(last), ""]);
    }
  }

  /** The data sent before the end marker are what is read, and nothing of what comes after it. */
  lemma DataReadBack<V>(datas: seq<string>, after: seq<string>, parse: string -> Option<V>, chunks: seq<string>)
    requires AllSendable(datas) && AllParse(datas, parse) && "[DONE]" !in datas && Unbroken(after)
    requires Concat(chunks) == Printed(DataLines(datas) + ([DataLine("[DONE]")] + after))
    ensures AreRead(Events(Lines(Concat(chunks)), parse), datas, parse)
  {
    DataLinesRead(datas, parse);
    FieldsRead("[DONE]");
    ReadsUpTo(DataLines(datas), DataLine("[DONE]"), after, parse);
  }

  lemma ReadsUpTo<V>(lines: seq<string>, done: string, after: seq<string>, parse: string -> Option<V>)
    requires Unbroken(lines) && !Ends(lines) && '\n' !in done && Unbroken(after) && Data(done) == Some("[DONE]")
    ensures Events(Lines(Printed(lines + ([done] + after))), parse) == Events(lines, parse)
  {
    var later := [done] + after + [""];
    PrintedAll(lines + ([done] + after));
    assert lines + ([done] + after) + [""] == lines + later;
    EventsConcat(lines, later, parse);
    assert later[0] == done;
    assert Events(lines, parse) + [] == Events(lines, parse);
  }

  // ---------------------------------------------------------------- newline-delimited JSON

  function JsonLines<V>(lines: seq<string>, parse: string -> Option<V>): seq<V> {
    if lines == [] then [] else JsonLine(lines[0], parse) + JsonLines(lines[1..], parse)
  }

  function JsonLine<V>(line: string, parse: string -> Option<V>): seq<V> {
    if Trim(line) == "" || parse(Trim(line)).None? then [] else [parse(Trim(line)).value]
  }

  lemma {:induction false} JsonConcat<V>(xs: seq<string>, ys: seq<string>, parse: string -> Option<V>)
    ensures JsonLines(xs + ys, parse) == JsonLines(xs, parse) + JsonLines(ys, parse)
    decreases |xs|
  {
    if xs == [] {
      assert xs + ys == ys;
    } else {
      assert (xs + ys)[1..] == xs[1..] + ys;
      JsonConcat(xs[1..], ys, parse);
    }
  }

  ghost function JsonByChunk<V>(buffer: string, chunks: seq<string>, i: nat, parse: string -> Option<V>): seq<V>
    requires i <= |chunks|
    decreases |chunks| - i
  {
    if i == |chunks| then []
    else
      JsonLines(Complete(buffer + chunks[i]), parse)
      + JsonByChunk(Rest(buffer + chunks[i]), chunks, i + 1, parse)
  }

  lemma {:induction false} JsonByChunkIsWhole<V>(buffer: string, chunks: seq<string>, i: nat,
                                                parse: string -> Option<V>)
    requires i <= |chunks| && '\n' !in buffer
    ensures JsonByChunk(buffer, chunks, i, parse) == JsonLines(Complete(buffer + Concat(chunks[i..])), parse)
    decreases |chunks| - i
  {
    if i == |chunks| {
      NoChunk(buffer, chunks);
    } else {
      var text, later := buffer + chunks[i], Concat(chunks[i + 1..]);
      NextChunk(buffer, chunks, i);
      LinesConcat(text, later);
      JsonByChunkIsWhole(Rest(text), chunks, i + 1, parse);
      JsonConcat(Complete(text), Complete(Rest(text) + later), parse);
    }
  }

  /** The inner loop, over the lines a chunk completes. */
  method NewlineJsonLines<V>(parts: seq<string>, parse: string -> Option<V>) returns (out: seq<V>)
    ensures out == JsonLines(parts, parse)
  {
    out := [];
    assert parts[0..] == parts;
    for j := 0 to |parts|
      invariant out + JsonLines(parts[j..], parse) == JsonLines(parts, parse)
    {
      assert parts[j..][1..] == parts[j + 1..];
      ConcatAssoc(out, JsonLine(parts[j], parse), JsonLines(parts[j + 1..], parse));
      var trimmed := Trim(parts[j]);
      ghost var was := out;
      if trimmed != "" {
        var parsed := parse(trimmed);
        if parsed.Some? { out := out + [parsed.value]; }
      }
      assert out == was + JsonLine(parts[j], parse);
    }
  }

  method ParseNewlineJson<V>(chunks: seq<string>, parse: string -> Option<V>) returns (out: seq<V>)
    ensures out == JsonLines(Complete(Concat(chunks)), parse)
  {
    out := [];
    var buffer := "";
    JsonByChunkIsWhole("", chunks, 0, parse);
    assert "" + Concat(chunks) == Concat(chunks) && chunks[0..] == chunks;
    for i := 0 to |chunks|
      invariant out + JsonByChunk(buffer, chunks, i, parse) == JsonLines(Complete(Concat(chunks)), parse)
    {
      buffer := buffer + chunks[i];
      var parts := Complete(buffer);
      buffer := Rest(buffer);
      var values := NewlineJsonLines(parts, parse);
      ConcatAssoc(out, values, JsonByChunk(buffer, chunks, i + 1, parse));
      out := out + values;
    }
  }

  lemma {:induction false} JsonLinesRead<V>(datas: seq<string>, parse: string -> Option<V>)
    requires AllSendable(datas) && AllParse(datas, parse)
    ensures AreRead(JsonLines(datas, parse), datas, parse)
    decreases |datas|
  {
    if datas != [] {
      var front, last := datas[..|datas| - 1], datas[|datas| - 1];
      JsonLinesRead(front, parse);
      JsonConcat(front, [last], parse);
      TrimmedFixed(last);
      assert [last][1..] == [] && datas == front + [last];
    }
  }

  /** One text a line, and each is read; a last line that does not end is not. */
  lemma JsonReadBack<V>(datas: seq<string>, last: string, parse: string -> Option<V>, chunks: seq<string>)
    requires AllSendable(datas) && AllParse(datas, parse) && '\n' !in last
    requires Concat(chunks) == Printed(datas) + last
    ensures AreRead(JsonLines(Complete(Concat(chunks)), parse), datas, parse)
  {
    JsonLinesRead(datas, parse);
    PrintedLines(datas);
    LinesConcat(Printed(datas), last);
    SplitFromPlain("", last, '\n');
    assert "" + last == last && Complete(last) == [] && datas + [] == datas;
  }
}
