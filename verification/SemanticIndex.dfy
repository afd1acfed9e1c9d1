/**
 The semantic index (packages/forge-agent/src/semantic-index.ts:64-78 and 176-188): a file
 is cut into windows of lines, and a hit is read back from its printed reference.
 */
module SemanticIndex {
  import opened Text

  const CHUNK_LINES := 50

  datatype Chunk = Chunk(ref: string, file: string, start: nat, end: nat, text: string)

  function PrintRef(path: string, start: nat, end: nat): string {
    path + "#" + Decimal(start) + "-" + Decimal(end)
  }

  function WindowEnd(lines: seq<string>, i: nat): nat {
    if i + CHUNK_LINES <= |lines| then i + CHUNK_LINES else |lines|
  }

  function Window(lines: seq<string>, i: nat): string
    requires i < |lines|
  {
    Join(lines[i..WindowEnd(lines, i)], "\n")
  }

  predicate BlankWindow(lines: seq<string>, i: nat)
    requires i < |lines|
  {
    Trim(Window(lines, i)) == ""
  }

  /** The first lines of the windows from line `i` on that are not blank. */
  function Starts(lines: seq<string>, i: nat): (starts: seq<nat>)
    ensures forall k :: 0 <= k < |starts| ==> starts[k] < |lines|
    decreases |lines| - i
  {
    if i >= |lines| then []
    else (if BlankWindow(lines, i) then [] else [i]) + Starts(lines, i + CHUNK_LINES)
  }

  function ChunkAt(path: string, lines: seq<string>, i: nat): Chunk
    requires i < |lines|
  {
    Chunk(PrintRef(path, i + 1, WindowEnd(lines, i)), path, i + 1, WindowEnd(lines, i), Window(lines, i))
  }

  function ChunksAt(path: string, lines: seq<string>, starts: seq<nat>): seq<Chunk>
    requires forall k :: 0 <= k < |starts| ==> starts[k] < |lines|
  {
    seq(|starts|, k requires 0 <= k < |starts| => ChunkAt(path, lines, starts[k]))
  }

  /** The chunks of a file: a window each, but none for a blank one. */
  function Chunks(path: string, content: string): seq<Chunk> {
    ChunksAt(path, Split(content, '\n'), Starts(Split(content, '\n'), 0))
  }

  lemma ChunksSnoc(path: string, lines: seq<string>, starts: seq<nat>, i: nat)
    requires i < |lines| && forall k :: 0 <= k < |starts| ==> starts[k] < |lines|
    ensures ChunksAt(path, lines, starts + [i]) == ChunksAt(path, lines, starts) + [ChunkAt(path, lines, i)]
  {
  }

  lemma StartsNext(lines: seq<string>, i: nat, before: seq<nat>)
    requires i < |lines|
    ensures before + Starts(lines, i)
         == (if BlankWindow(lines, i) then before else before + [i]) + Starts(lines, i + CHUNK_LINES)
  {
    var rest := Starts(lines, i + CHUNK_LINES);
    ConcatAssoc(before, [i], rest);
    assert [] + rest == rest;
  }

  method ChunkFile(path: string, content: string) returns (chunks: seq<Chunk>)
    ensures chunks == Chunks(path, content)
  {
    var lines := Split(content, '\n');
    if Trim(content) == "" {
      BlankHasNoStarts(content);
      return [];
    }
    chunks := [];
    ghost var done: seq<nat> := [];
    var i := 0;
    while i < |lines|
      invariant done + Starts(lines, i) == Starts(lines, 0)
      invariant (forall k :: 0 <= k < |done| ==> done[k] < |lines|) && chunks == ChunksAt(path, lines, done)
    {
      StartsNext(lines, i, done);
      var chunk := MakeChunk(path, lines, i);
      if Trim(chunk.text) != "" {
        ChunksSnoc(path, lines, done, i);
        chunks := chunks + [chunk];
        done := done + [i];
      }
      i := i + CHUNK_LINES;
    }
    assert done + [] == done;
  }

  /** The chunk of the window that begins at line `i`. */
  method MakeChunk(path: string, lines: seq<string>, i: nat) returns (chunk: Chunk)
    requires i < |lines|
    ensures chunk == ChunkAt(path, lines, i)
  {
    var start, end := i + 1, WindowEnd(lines, i);
    chunk := Chunk(PrintRef(path, start, end), path, start, end, Join(lines[i..end], "\n"));
  }

  // ---------------------------------------------------------------- tiling

  /** The texts of all windows from line `i` on. */
  function Texts(lines: seq<string>, i: nat): seq<string>
    decreases |lines| - i
  {
    if i >= |lines| then [] else [Window(lines, i)] + Texts(lines, i + CHUNK_LINES)
  }

  lemma {:induction false} TextsJoin(lines: seq<string>, i: nat)
    requires i < |lines|
    ensures Texts(lines, i) != [] && Join(Texts(lines, i), "\n") == Join(lines[i..], "\n")
    decreases |lines| - i
  {
    var end := WindowEnd(lines, i);
    if end == |lines| {
      assert lines[i..end] == lines[i..];
      assert Texts(lines, i) == [Window(lines, i)];
    } else {
      TextsJoin(lines, end);
      JoinCons(Window(lines, i), Texts(lines, end), "\n");
      JoinConcat(lines[i..end], lines[end..], "\n");
      assert lines[i..] == lines[i..end] + lines[end..];
    }
  }

  /** The windows are consecutive and miss nothing: joined by line breaks they are the file. */
  lemma WindowsTile(content: string)
    ensures Join(Texts(Split(content, '\n'), 0), "\n") == content
  {
    var lines := Split(content, '\n');
    SplitJoins("", content, '\n');
    TextsJoin(lines, 0);
    assert lines[0..] == lines && "" + content == content;
  }

  /** A chunk starts on a window border, and its window is not blank. */
  lemma {:induction false} StartIsWindow(lines: seq<string>, i: nat, k: nat)
    requires i % CHUNK_LINES == 0 && k < |Starts(lines, i)|
    ensures var w := Starts(lines, i)[k]; i <= w && w % CHUNK_LINES == 0 && !BlankWindow(lines, w)
    decreases |lines| - i
  {
    var rest := Starts(lines, i + CHUNK_LINES);
    var here := |Starts(lines, i)| - |rest|;
    if k >= here {
      StartIsWindow(lines, i + CHUNK_LINES, k - here);
      assert Starts(lines, i)[k] == rest[k - here];
    }
  }

  lemma {:induction false} StartsFrom(lines: seq<string>, i: nat, k: nat)
    requires k < |Starts(lines, i)|
    ensures i <= Starts(lines, i)[k]
    decreases |lines| - i
  {
    var rest := Starts(lines, i + CHUNK_LINES);
    var here := |Starts(lines, i)| - |rest|;
    if k >= here {
      StartsFrom(lines, i + CHUNK_LINES, k - here);
      assert Starts(lines, i)[k] == rest[k - here];
    }
  }

  lemma StartsRest(lines: seq<string>, i: nat, k: nat)
    requires i < |lines| && k < |Starts(lines, i)|
    ensures var here := if BlankWindow(lines, i) then 0 else 1;
            if k < here then Starts(lines, i)[k] == i
            else k - here < |Starts(lines, i + CHUNK_LINES)|
                 && Starts(lines, i)[k] == Starts(lines, i + CHUNK_LINES)[k - here]
  {
  }

  lemma {:induction false} StartsAscend(lines: seq<string>, i: nat, j: nat, k: nat)
    requires j < k < |Starts(lines, i)|
    ensures Starts(lines, i)[j] + CHUNK_LINES <= Starts(lines, i)[k]
    decreases |lines| - i, 1
  {
    if i < |lines| {
      StartsRest(lines, i, j);
      StartsRest(lines, i, k);
      AscendRest(lines, i, j, k, if BlankWindow(lines, i) then 0 else 1);
    }
  }

  lemma {:induction false} AscendRest(lines: seq<string>, i: nat, j: nat, k: nat, here: nat)
    requires i < |lines| && j < k && here <= 1 && here <= k && k - here < |Starts(lines, i + CHUNK_LINES)|
    ensures (if j < here then i else Starts(lines, i + CHUNK_LINES)[j - here]) + CHUNK_LINES
            <= Starts(lines, i + CHUNK_LINES)[k - here]
    decreases |lines| - i, 0
  {
    if j < here {
      StartsFrom(lines, i + CHUNK_LINES, k - here);
    } else {
      StartsAscend(lines, i + CHUNK_LINES, j - here, k - here);
    }
  }

  /** A window that is not blank has its chunk. */
  lemma {:induction false} WindowStarts(lines: seq<string>, i: nat, w: nat)
    requires i % CHUNK_LINES == 0 && w % CHUNK_LINES == 0 && i <= w < |lines| && !BlankWindow(lines, w)
    ensures w in Starts(lines, i)
    decreases |lines| - i
  {
    if i < w { WindowStarts(lines, i + CHUNK_LINES, w); }
  }

  lemma TrimBlank(s: string)
    ensures Trim(s) == "" <==> Blank(s)
  {
    if Blank(s) {
      BlankTrims(s);
    } else {
      var lead, trail := TrimParts(s);
      BlankConcat(lead, trail);
      assert lead + "" + trail == lead + trail;
    }
  }

  /** Blanks are blank line by line, since a line break is one itself. */
  lemma {:induction false} JoinBlank(parts: seq<string>)
    ensures Blank(Join(parts, "\n")) <==> forall k :: 0 <= k < |parts| ==> Blank(parts[k])
    decreases |parts|
  {
    if |parts| > 1 {
      JoinBlank(parts[1..]);
      assert parts == [parts[0]] + parts[1..];
      BlankConcat(parts[0] + "\n", Join(parts[1..], "\n"));
      BlankConcat(parts[0], "\n");
      assert forall k :: 1 <= k < |parts| ==> parts[k] == parts[1..][k - 1];
    }
  }

  lemma BlankConcat(a: string, b: string)
    ensures Blank(a + b) <==> Blank(a) && Blank(b)
  {
    assert forall i :: 0 <= i < |a| ==> (a + b)[i] == a[i];
    assert forall i :: 0 <= i < |b| ==> (a + b)[|a| + i] == b[i];
  }

  predicate Covers(c: Chunk, j: nat) {
    c.start <= j + 1 <= c.end
  }

  lemma WindowBlank(lines: seq<string>, w: nat)
    requires w < |lines|
    ensures BlankWindow(lines, w) <==> forall j :: w <= j < w + 50 && j < |lines| ==> Blank(lines[j])
  {
    var part := lines[w..WindowEnd(lines, w)];
    JoinBlank(part);
    TrimBlank(Window(lines, w));
    assert forall j :: w <= j < WindowEnd(lines, w) ==> lines[j] == part[j - w];
  }

  /** The first line of the window a line is in. */
  function WindowOf(j: nat): (w: nat)
    ensures w <= j < w + 50 && w % 50 == 0
    ensures forall v: nat :: v <= j < v + 50 && v % 50 == 0 ==> v == w
  {
    j - j % CHUNK_LINES
  }

  lemma CoversIff(path: string, lines: seq<string>, i: nat, j: nat)
    requires i < |lines| && j < |lines| && i % CHUNK_LINES == 0
    ensures Covers(ChunkAt(path, lines, i), j) <==> i == WindowOf(j)
  {
  }

  lemma ChunkCovers(path: string, content: string, j: nat, k: nat)
    requires j < |Split(content, '\n')| && k < |Chunks(path, content)|
    ensures Covers(Chunks(path, content)[k], j) <==> Starts(Split(content, '\n'), 0)[k] == WindowOf(j)
  {
    var lines := Split(content, '\n');
    StartIsWindow(lines, 0, k);
    CoversIff(path, lines, Starts(lines, 0)[k], j);
  }

  /** A line is in a chunk exactly when its window has something on some line, and never in two. */
  lemma CoveredIff(path: string, content: string, j: nat)
    requires j < |Split(content, '\n')|
    ensures (exists k :: 0 <= k < |Chunks(path, content)| && Covers(Chunks(path, content)[k], j))
            <==> !BlankWindow(Split(content, '\n'), WindowOf(j))
    ensures forall k, k' :: 0 <= k < k' < |Chunks(path, content)| ==>
              !(Covers(Chunks(path, content)[k], j) && Covers(Chunks(path, content)[k'], j))
  {
    var lines, chunks := Split(content, '\n'), Chunks(path, content);
    var starts := Starts(lines, 0);
    forall k | 0 <= k < |chunks|
      ensures Covers(chunks[k], j) <==> starts[k] == WindowOf(j)
      ensures !BlankWindow(lines, starts[k])
    {
      ChunkCovers(path, content, j, k);
      StartIsWindow(lines, 0, k);
    }
    if !BlankWindow(lines, WindowOf(j)) {
      WindowStarts(lines, 0, WindowOf(j));
      var k :| 0 <= k < |starts| && starts[k] == WindowOf(j);
      assert Covers(chunks[k], j);
    }
    forall k, k' | 0 <= k < k' < |chunks|
      ensures starts[k] != starts[k']
    {
      StartsAscend(lines, 0, k, k');
    }
  }

  lemma BlankHasNoStarts(content: string)
    requires Trim(content) == ""
    ensures Starts(Split(content, '\n'), 0) == []
  {
    var lines := Split(content, '\n');
    TrimBlank(content);
    SplitJoins("", content, '\n');
    assert "" + content == content;
    JoinBlank(lines);
    if Starts(lines, 0) != [] {
      StartIsWindow(lines, 0, 0);
      WindowBlank(lines, Starts(lines, 0)[0]);
    }
  }

  // ---------------------------------------------------------------- references

  /** What `.` does not match. */
  predicate LineTerminator(c: char) {
    c == '\n' || c == '\r' || c == '\U{2028}' || c == '\U{2029}'
  }

  predicate OneLine(s: string) {
    forall i :: 0 <= i < |s| ==> !LineTerminator(s[i])
  }

  datatype Parsed = Parsed(file: string, first: string, last: string)

  /** The ways the pattern of the source can match. */
  ghost predicate Matches(ref: string, p: Parsed) {
    && ref == p.file + "#" + p.first + "-" + p.last && OneLine(p.file)
    && p.first != "" && AllDigits(p.first) && p.last != "" && AllDigits(p.last)
  }

  /** Where the last `#` is. */
  function LastHash(s: string): (p: Option<nat>)
    ensures p.Some? ==> p.value < |s| && s[p.value] == '#'
    ensures forall i :: 0 <= i < |s| && s[i] == '#' ==> p.Some? && i <= p.value
  {
    if s == "" then None
    else if s[|s| - 1] == '#' then Some(|s| - 1)
    else LastHash(s[..|s| - 1])
  }

  function ParseRef(ref: string): (r: Option<Parsed>)
    ensures r.Some? ==> AllDigits(r.value.first) && AllDigits(r.value.last)
  {
    var p := LastHash(ref);
    if p.None? then None
    else
      var file, rest := ref[..p.value], ref[p.value + 1..];
      var first := DigitPrefix(rest);
      if first == "" || |first| >= |rest| || rest[|first|] != '-' then None
      else
        var last := rest[|first| + 1..];
        if last == "" || !AllDigits(last) || !OneLine(file) then None else Some(Parsed(file, first, last))
  }

  lemma {:induction false} DigitPrefixParts(s: string)
    ensures DigitPrefix(s) <= s
    decreases |s|
  {
    if s != "" && '0' <= s[0] <= '9' { DigitPrefixParts(s[1..]); }
  }

  /** The last `#` is the one before a text without any, whatever stands in front of it. */
  lemma HashBefore(file: string, tail: string)
    requires forall i :: 0 <= i < |tail| ==> tail[i] != '#'
    ensures var ref := file + "#" + tail;
            LastHash(ref) == Some(|file|) && ref[..|file|] == file && ref[|file| + 1..] == tail
  {
    var ref := file + "#" + tail;
    assert ref[|file|] == '#';
    forall i | |file| < i < |ref|
      ensures ref[i] != '#'
    {
      assert ref[i] == tail[i - |file| - 1];
    }
  }

  lemma MatchParses(ref: string, p: Parsed)
    requires Matches(ref, p)
    ensures ParseRef(ref) == Some(p)
  {
    var tail, rest := p.first + ("-" + p.last), "-" + p.last;
    assert ref == p.file + "#" + tail;
    HashBefore(p.file, tail);
    DigitPrefixOf(p.first, rest);
    assert tail[|p.first|] == '-' && tail[|p.first| + 1..] == p.last;
  }

  lemma ParsedMatches(ref: string)
    requires ParseRef(ref).Some?
    ensures Matches(ref, ParseRef(ref).value)
  {
    var h, p := LastHash(ref).value, ParseRef(ref).value;
    CutAt(ref, h, '#');
    DigitPrefixParts(ref[h + 1..]);
    RestParts(ref[h + 1..], p.first);
    Rejoined(ref[..h], p.first, p.last, ref[h + 1..], ref);
  }

  lemma RestParts(rest: string, first: string)
    requires first <= rest && |first| < |rest| && rest[|first|] == '-'
    ensures rest == first + "-" + rest[|first| + 1..]
  {
    CutAt(rest, |first|, '-');
  }

  lemma Rejoined(file: string, first: string, last: string, rest: string, ref: string)
    requires rest == first + "-" + last && ref == file + "#" + rest
    ensures ref == file + "#" + first + "-" + last
  {
  }

  lemma CutAt(s: string, k: nat, c: char)
    requires k < |s| && s[k] == c
    ensures s == s[..k] + [c] + s[k + 1..]
  {
  }

  /** A match is what the scan from the last `#` finds, so there is at most one. */
  lemma ParseRefIff(ref: string, p: Parsed)
    ensures ParseRef(ref) == Some(p) <==> Matches(ref, p)
  {
    if Matches(ref, p) { MatchParses(ref, p); }
    if ParseRef(ref).Some? { ParsedMatches(ref); }
  }

  /** A printed reference is read back, with the same path and lines, exactly when the path has no line terminator. */
  lemma RefRoundTrip(path: string, start: nat, end: nat)
    ensures ParseRef(PrintRef(path, start, end))
            == if OneLine(path) then Some(Parsed(path, Decimal(start), Decimal(end))) else None
    ensures ParseDecimal(Decimal(start)) == start && ParseDecimal(Decimal(end)) == end
  {
    var ref := PrintRef(path, start, end);
    DecimalRoundTrip(start);
    DecimalRoundTrip(end);
    if OneLine(path) {
      ParseRefIff(ref, Parsed(path, Decimal(start), Decimal(end)));
    } else {
      var tail := Decimal(start) + "-" + Decimal(end);
      assert ref == path + "#" + tail;
      HashBefore(path, tail);
    }
  }

  // ---------------------------------------------------------------- reading a hit back

  /** `lines.slice(a, b)`: a negative bound counts from the end, and both are clamped. */
  function Clamped(n: nat, i: int): nat {
    if i < 0 then (if n + i < 0 then 0 else n + i) else if i > n then n else i
  }

  function Slice(lines: seq<string>, a: int, b: int): seq<string> {
    var lo, hi := Clamped(|lines|, a), Clamped(|lines|, b);
    if lo <= hi then lines[lo..hi] else []
  }

  datatype Hit = Hit(file: string, start: nat, end: nat, snippet: string)

  /** One hit of a search: the snippet is read again from the file, and is empty when the file is gone. */
  method ReadHit(targetRef: string, files: map<string, string>) returns (hit: Option<Hit>)
    ensures hit == ReadBack(targetRef, files)
  {
    var m := ParseRef(targetRef);
    if m.None? { return None; }
    var start: int, end: int := ParseDecimal(m.value.first), ParseDecimal(m.value.last);
    var snippet := "";
    if m.value.file in files {
      var lines := Split(files[m.value.file], '\n');
      snippet := Join(Slice(lines, start - 1, end), "\n");
    }
    hit := Some(Hit(m.value.file, start, end, snippet));
  }

  function ReadBack(targetRef: string, files: map<string, string>): Option<Hit> {
    var m := ParseRef(targetRef);
    if m.None? then None
    else
      var start, end := ParseDecimal(m.value.first), ParseDecimal(m.value.last);
      Some(Hit(m.value.file, start, end,
               if m.value.file in files
               then Join(Slice(Split(files[m.value.file], '\n'), start - 1, end), "\n") else ""))
  }

  lemma SliceOf(lines: seq<string>, w: nat)
    requires w < |lines|
    ensures Join(Slice(lines, w, WindowEnd(lines, w)), "\n") == Window(lines, w)
  {
  }

  /** Reading back any chunk of a file that has not changed gives the chunk, even when the path contains `#`. */
  lemma ChunkReadBack(path: string, content: string, files: map<string, string>, k: nat)
    requires OneLine(path) && path in files && files[path] == content && k < |Chunks(path, content)|
    ensures var c := Chunks(path, content)[k];
            c.file == path && ReadBack(c.ref, files) == Some(Hit(path, c.start, c.end, c.text))
  {
    var lines := Split(content, '\n');
    var w := Starts(lines, 0)[k];
    var c := Chunks(path, content)[k];
    assert c == ChunkAt(path, lines, w);
    RefRoundTrip(path, c.start, c.end);
    SliceOf(lines, w);
    var p := Parsed(path, Decimal(c.start), Decimal(c.end));
    assert ParseRef(c.ref) == Some(p);
  }

  /**
   What any reference reads back from a file that is there: the lines it names, as far as there
   are any; a reference from line 0, which no chunk has, reads from the last line on.
   */
  lemma AnyReadBack(path: string, start: nat, end: nat, files: map<string, string>)
    requires OneLine(path) && path in files
    ensures var lines := Split(files[path], '\n');
            var first := if start == 0 then |lines| - 1 else if start - 1 > |lines| then |lines| else start - 1;
            var last := if end > |lines| then |lines| else end;
            ReadBack(PrintRef(path, start, end), files)
            == Some(Hit(path, start, end, Join(if first <= last then lines[first..last] else [], "\n")))
  {
    RefRoundTrip(path, start, end);
  }
}
