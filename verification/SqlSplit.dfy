/**
 `splitSqlStatements` (packages/forge-state-store/src/store.ts:659-714): cut a
 migration script at its top-level semicolons, with one character of look-ahead
 for comments and one of look-behind for backslashes.
 */
module SqlSplit {
  import opened Text

  /**
   Where the scanner stands. The source keeps four flags, never two at once.
   `ToLine`, `ToBlock` and `ToCode` stand between the two characters of `--`, of
   a block-comment opener and of its closer, which the source reads in one go.
   */
  datatype Mode = Code | Single | Double | Line | Block | ToLine | ToBlock | ToCode

  predicate Between(m: Mode) {
    m.ToLine? || m.ToBlock? || m.ToCode?
  }

  /** The second character of `s`. */
  function Ahead(s: string): Option<char> {
    if |s| > 1 then Some(s[1]) else None
  }

  /** The mode after `ch`; `esc`: a backslash stands just before it; `ahead`: what follows it. */
  function Next(m: Mode, esc: bool, ch: char, ahead: Option<char>): Mode {
    match m
    case ToLine => Line
    case ToBlock => Block
    case ToCode => Code
    case Line => if ch == '\n' then Code else Line
    case Block => if ch == '*' && ahead == Some('/') then ToCode else Block
    case Single => if ch == '\'' && !esc then Code else Single
    case Double => if ch == '"' && !esc then Code else Double
    case Code =>
      if ch == '-' && ahead == Some('-') then ToLine
      else if ch == '/' && ahead == Some('*') then ToBlock
      else if ch == '\'' && !esc then Single
      else if ch == '"' && !esc then Double
      else Code
  }

  /** A statement border: a semicolon outside quotes and comments. */
  predicate Border(m: Mode, c: char) {
    m == Code && c == ';'
  }

  /** The pieces of a text: up to its first border, and the others. */
  datatype Pieces = Pieces(first: string, rest: seq<string>)

  function Raw(m: Mode, esc: bool, s: string): Pieces
    decreases |s|
  {
    if s == "" then Pieces("", [])
    else if Border(m, s[0]) then
      var r := Raw(Code, false, s[1..]);
      Pieces("", [r.first] + r.rest)
    else
      var r := Raw(Next(m, esc, s[0], Ahead(s)), s[0] == '\\', s[1..]);
      Pieces([s[0]] + r.first, r.rest)
  }

  /** The untrimmed pieces between the top-level semicolons of a script. */
  function RawPieces(input: string): seq<string> {
    var r := Raw(Code, false, input);
    [r.first] + r.rest
  }

  /** The mode the scanner is in once it has read all of `s`. */
  function EndMode(m: Mode, esc: bool, s: string): Mode
    decreases |s|
  {
    if s == "" then m
    else if Border(m, s[0]) then EndMode(Code, false, s[1..])
    else EndMode(Next(m, esc, s[0], Ahead(s)), s[0] == '\\', s[1..])
  }

  /** No top-level semicolon. */
  predicate Whole(s: string) {
    Raw(Code, false, s) == Pieces(s, [])
  }

  /** Ends outside quotes and comments. */
  predicate Closed(s: string) {
    EndMode(Code, false, s) == Code
  }

  /** Trim every piece and drop the empty ones. */
  function Clean(pieces: seq<string>): seq<string> {
    if pieces == [] then [] else Kept(pieces[0]) + Clean(pieces[1..])
  }

  function Kept(piece: string): seq<string> {
    if Trim(piece) == "" then [] else [Trim(piece)]
  }

  function Statements(input: string): seq<string> {
    Clean(RawPieces(input))
  }

  // ---------------------------------------------------------------- the loop

  /** What is still to come out, given the text buffered so far and the position reached. */
  ghost function Pending(m: Mode, buf: string, input: string, i: nat): seq<string>
    requires i <= |input|
    decreases |input| - i
  {
    if i == |input| then Kept(buf)
    else if Border(m, input[i]) then Kept(buf) + Pending(Code, "", input, i + 1)
    else
      var ahead := if i + 1 < |input| then Some(input[i + 1]) else None;
      Pending(Next(m, i > 0 && input[i - 1] == '\\', input[i], ahead), buf + [input[i]], input, i + 1)
  }

  lemma CleanAll(r: Pieces)
    ensures Clean([r.first] + r.rest) == Kept("" + r.first) + Clean(r.rest)
  {
    assert "" + r.first == r.first && ([r.first] + r.rest)[1..] == r.rest;
  }

  /** What is pending is what the pieces of the rest of the text make of the buffer. */
  ghost predicate PendingClean(m: Mode, buf: string, input: string, i: nat)
    requires i <= |input|
  {
    var r := Raw(m, i > 0 && input[i - 1] == '\\', input[i..]);
    Pending(m, buf, input, i) == Kept(buf + r.first) + Clean(r.rest)
  }

  lemma PendingBorder(m: Mode, buf: string, input: string, i: nat)
    requires i < |input| && Border(m, input[i]) && Pending(Code, "", input, i + 1) == Statements(input[i + 1..])
    ensures PendingClean(m, buf, input, i)
  {
    assert input[i..][1..] == input[i + 1..] && buf + "" == buf;
  }

  lemma PendingPlain(m: Mode, buf: string, input: string, i: nat, n: Mode)
    requires i < |input| && !Border(m, input[i])
    requires n == Next(m, i > 0 && input[i - 1] == '\\', input[i], Ahead(input[i..]))
    requires PendingClean(n, buf + [input[i]], input, i + 1)
    ensures PendingClean(m, buf, input, i)
  {
    assert input[i..][1..] == input[i + 1..];
    ConcatAssoc(buf, [input[i]], Raw(n, input[i] == '\\', input[i + 1..]).first);
  }

  lemma {:induction false} PendingIsClean(m: Mode, buf: string, input: string, i: nat)
    requires i <= |input|
    ensures PendingClean(m, buf, input, i)
    decreases |input| - i
  {
    if i == |input| {
      assert buf + "" == buf;
    } else if Border(m, input[i]) {
      PendingIsClean(Code, "", input, i + 1);
      CleanAll(Raw(Code, false, input[i + 1..]));
      PendingBorder(m, buf, input, i);
    } else {
      var n := Next(m, i > 0 && input[i - 1] == '\\', input[i], Ahead(input[i..]));
      PendingIsClean(n, buf + [input[i]], input, i + 1);
      PendingPlain(m, buf, input, i, n);
    }
  }

  lemma PendingAtStart(input: string)
    ensures Pending(Code, "", input, 0) == Statements(input)
  {
    PendingIsClean(Code, "", input, 0);
    CleanAll(Raw(Code, false, input));
    assert input[0..] == input;
  }

  /** The source's loop, with its four flags: the printed tokens between the semicolons, cleaned. */
  method SplitSqlStatements(input: string) returns (out: seq<string>)
    ensures out == Statements(input)
    ensures forall ts :: IsScript(false, ts) && Print(ts) == input ==> out == Clean([Cut(ts).first] + Cut(ts).rest)
  {
    out := [];
    var buf := "";
    var inSingle, inDouble, inLineComment, inBlockComment := false, false, false, false;
    ghost var m := Code;
    var i := 0;
    PendingAtStart(input);
    while i < |input|
      invariant 0 <= i <= |input| && !Between(m)
      invariant inSingle == m.Single? && inDouble == m.Double?
      invariant inLineComment == m.Line? && inBlockComment == m.Block?
      invariant out + Pending(m, buf, input, i) == Statements(input)
    {
      var ch := input[i];
      var next := if i + 1 < |input| then Some(input[i + 1]) else None;
      var escaped := i > 0 && input[i - 1] == '\\';
      m := if Border(m, ch) then Code else Next(m, escaped, ch, next);
      if Between(m) {
        m := if m == ToLine then Line else if m == ToBlock then Block else Code;
      }
      i := i + 1;
      if inLineComment {
        if ch == '\n' { inLineComment := false; }
        buf := buf + [ch];
      } else if inBlockComment {
        if ch == '*' && next == Some('/') {
          inBlockComment := false;
          assert buf + [ch] + ['/'] == buf + "*/";
          buf := buf + "*/";
          i := i + 1;
        } else {
          buf := buf + [ch];
        }
      } else if !inSingle && !inDouble && ch == '-' && next == Some('-') {
        inLineComment := true;
        assert buf + [ch] + ['-'] == buf + "--";
        buf := buf + "--";
        i := i + 1;
      } else if !inSingle && !inDouble && ch == '/' && next == Some('*') {
        inBlockComment := true;
        assert buf + [ch] + ['*'] == buf + "/*";
        buf := buf + "/*";
        i := i + 1;
      } else {
        if !inDouble && ch == '\'' && !escaped {
          inSingle := !inSingle;
        } else if !inSingle && ch == '"' && !escaped {
          inDouble := !inDouble;
        }
        if ch == ';' && !inSingle && !inDouble {
          ConcatAssoc(out, Kept(buf), Pending(Code, "", input, i));
          var trimmed := Trim(buf);
          if |trimmed| > 0 { out := out + [trimmed]; }
          buf := "";
        } else {
          buf := buf + [ch];
        }
      }
    }
    var tail := Trim(buf);
    if |tail| > 0 { out := out + [tail]; }
    forall ts | IsScript(false, ts) { ScriptCut(false, ts); }
  }

  // ---------------------------------------------------------------- borders

  /** The pieces joined with semicolons are the input: no character is lost. */
  lemma {:induction false} RawJoins(m: Mode, esc: bool, s: string)
    ensures Join([Raw(m, esc, s).first] + Raw(m, esc, s).rest, ";") == s
    decreases |s|
  {
    if s == "" {
    } else if Border(m, s[0]) {
      var r := Raw(Code, false, s[1..]);
      RawJoins(Code, false, s[1..]);
      JoinCons("", [r.first] + r.rest, ";");
    } else {
      var r := Raw(Next(m, esc, s[0], Ahead(s)), s[0] == '\\', s[1..]);
      RawJoins(Next(m, esc, s[0], Ahead(s)), s[0] == '\\', s[1..]);
      JoinPrefix([s[0]], [r.first] + r.rest, ";");
      assert ([r.first] + r.rest)[1..] == r.rest;
    }
  }

  /** A prefix of the first piece has no border of its own. */
  lemma {:induction false} PrefixWhole(m: Mode, esc: bool, s: string, p: string)
    requires p <= Raw(m, esc, s).first
    ensures Raw(m, esc, p) == Pieces(p, [])
    decreases |s|
  {
    if p != "" {
      assert p[0] == s[0] && p == [p[0]] + p[1..];
      if |p| > 1 {
        var r := Raw(Next(m, esc, s[0], Ahead(s)), s[0] == '\\', s[1..]);
        assert p[1..] <= r.first;
        assert r.first[0] == s[1] by { FirstIsPrefix(Next(m, esc, s[0], Ahead(s)), s[0] == '\\', s[1..]); }
        assert p[1] == s[1];
        PrefixWhole(Next(m, esc, s[0], Ahead(s)), s[0] == '\\', s[1..], p[1..]);
      }
    }
  }

  lemma {:induction false} FirstIsPrefix(m: Mode, esc: bool, s: string)
    ensures Raw(m, esc, s).first <= s
    decreases |s|
  {
    if s != "" && !Border(m, s[0]) {
      FirstIsPrefix(Next(m, esc, s[0], Ahead(s)), s[0] == '\\', s[1..]);
    }
  }

  /** The first piece ends outside quotes and comments when another one follows. */
  lemma {:induction false} FirstPieceCloses(m: Mode, esc: bool, s: string)
    requires Raw(m, esc, s).rest != []
    ensures EndMode(m, esc, Raw(m, esc, s).first) == Code
    decreases |s|
  {
    if !Border(m, s[0]) {
      var n := Next(m, esc, s[0], Ahead(s));
      var r := Raw(n, s[0] == '\\', s[1..]);
      FirstPieceCloses(n, s[0] == '\\', s[1..]);
      FirstIsPrefix(n, s[0] == '\\', s[1..]);
      var p := [s[0]] + r.first;
      assert p[1..] == r.first;
      // nothing after the first piece can be the second half of a token in it
      assert Next(m, esc, p[0], Ahead(p)) == n;
    }
  }

  /** Every further piece holds no border and, but for the last, ends outside quotes and comments. */
  lemma {:induction false} LaterPieces(m: Mode, esc: bool, s: string, k: nat)
    requires k < |Raw(m, esc, s).rest|
    ensures Whole(Raw(m, esc, s).rest[k])
    ensures k < |Raw(m, esc, s).rest| - 1 ==> Closed(Raw(m, esc, s).rest[k])
    decreases |s|
  {
    if !Border(m, s[0]) {
      LaterPieces(Next(m, esc, s[0], Ahead(s)), s[0] == '\\', s[1..], k);
    } else if k > 0 {
      LaterPieces(Code, false, s[1..], k - 1);
    } else {
      var r := Raw(Code, false, s[1..]);
      PrefixWhole(Code, false, s[1..], r.first);
      if r.rest != [] { FirstPieceCloses(Code, false, s[1..]); }
    }
  }

  /** What follows a whole text past its end does not change how its first character is read. */
  lemma AppendStep(m: Mode, esc: bool, s: string, t: string, n: Mode)
    requires s != "" && n == Next(m, esc, s[0], Ahead(s)) && Raw(m, esc, s) == Pieces(s, [])
    ensures Raw(n, s[0] == '\\', s[1..]) == Pieces(s[1..], []) && (Between(n) ==> s[1..] != "")
    ensures var rest := Raw(n, s[0] == '\\', s[1..] + ";" + t);
            Raw(m, esc, s + ";" + t) == Pieces([s[0]] + rest.first, rest.rest)
    ensures s + ";" == [s[0]] + (s[1..] + ";")
  {
    var all := s + ";" + t;
    assert all[0] == s[0] && all[1..] == s[1..] + ";" + t;
    assert Next(m, esc, s[0], Ahead(all)) == n by {
      assert |s| > 1 ==> all[1] == s[1];
      assert |s| == 1 ==> all[1] == ';';
    }
  }

  /**
   A border put after a whole text is seen exactly when that text ends outside
   quotes and comments; otherwise the first piece swallows it.
   */
  lemma {:induction false} RawAppend(m: Mode, esc: bool, s: string, t: string)
    requires Raw(m, esc, s) == Pieces(s, [])
    requires Between(m) ==> s != ""
    ensures var after := Raw(m, esc, s + ";" + t);
            if EndMode(m, esc, s) == Code
            then after == Pieces(s, [Raw(Code, false, t).first] + Raw(Code, false, t).rest)
            else s + ";" <= after.first
    decreases |s|
  {
    if s == "" {
      var all := s + ";" + t;
      assert all[1..] == t && all[0] == ';';
    } else {
      var n := Next(m, esc, s[0], Ahead(s));
      AppendStep(m, esc, s, t, n);
      RawAppend(n, s[0] == '\\', s[1..], t);
    }
  }

  // ---------------------------------------------------------------- the grammar

  /**
   What a script is made of. A comment runs to its line break or closer and a quotation to
   its closing quote; one that never gets there (`done` is false) is the last token.
   */
  datatype Token =
    | Plain(c: char)
    | Semicolon
    | LineComment(text: string, done: bool)
    | BlockComment(text: string, done: bool)
    | Quoted(quote: char, text: string, done: bool)

  function Printed(t: Token): string {
    match t
    case Plain(c) => [c]
    case Semicolon => ";"
    case LineComment(text, done) => "--" + text + (if done then "\n" else "")
    case BlockComment(text, done) => "/*" + text + (if done then "*/" else "")
    case Quoted(quote, text, done) => [quote] + text + (if done then [quote] else "")
  }

  function Print(ts: seq<Token>): (s: string)
    ensures s == "" ==> ts == []
  {
    if ts == [] then "" else Printed(ts[0]) + Print(ts[1..])
  }

  predicate IsQuote(c: char) {
    c == '\'' || c == '"'
  }

  predicate Finished(t: Token) {
    match t
    case Plain(_) => true
    case Semicolon => true
    case LineComment(_, done) => done
    case BlockComment(_, done) => done
    case Quoted(_, _, done) => done
  }

  predicate ClosesAt(text: string, after: string, k: nat)
    requires k < |text|
  {
    && text[k] == '*'
    && if k + 1 < |text| then text[k + 1] == '/' else after != "" && after[0] == '/'
  }

  /** No `*` of the text stands before a slash. */
  ghost predicate NoCloser(text: string, after: string) {
    forall k: nat :: k < |text| ==> !ClosesAt(text, after, k)
  }

  predicate EscapedAt(quote: char, esc: bool, text: string, k: nat)
    requires k < |text|
  {
    text[k] == quote ==> if k == 0 then esc else text[k - 1] == '\\'
  }

  /** Every quote of the text has a backslash just before it. */
  ghost predicate AllEscaped(quote: char, esc: bool, text: string) {
    forall k: nat :: k < |text| ==> EscapedAt(quote, esc, text, k)
  }

  predicate EndsEscaped(esc: bool, text: string) {
    if text == "" then esc else text[|text| - 1] == '\\'
  }

  /** A token where `esc` tells whether a backslash stands before it, and `after` is the text that follows. */
  ghost predicate IsToken(esc: bool, t: Token, after: string) {
    && (Finished(t) || after == "")
    && match t
       case Plain(c) =>
         && c != ';' && (IsQuote(c) ==> esc)
         && !(c == '-' && after != "" && after[0] == '-') && !(c == '/' && after != "" && after[0] == '*')
       case Semicolon => true
       case LineComment(text, _) => '\n' !in text
       case BlockComment(text, done) => NoCloser(text, if done then "*/" else "")
       case Quoted(quote, text, done) =>
         !esc && IsQuote(quote) && AllEscaped(quote, false, text) && (done ==> !EndsEscaped(false, text))
  }

  ghost predicate IsScript(esc: bool, ts: seq<Token>)
    decreases |ts|
  {
    ts == [] || (IsToken(esc, ts[0], Print(ts[1..])) && IsScript(ts[0] == Plain('\\'), ts[1..]))
  }

  /** One more token in front of the pieces: a semicolon begins a new piece. */
  function Then(t: Token, r: Pieces): Pieces {
    if t == Semicolon then Pieces("", [r.first] + r.rest) else Lead(Printed(t), r)
  }

  /** The printed tokens between the semicolons. */
  function Cut(ts: seq<Token>): Pieces {
    if ts == [] then Pieces("", []) else Then(ts[0], Cut(ts[1..]))
  }

  /** Text in front of the first piece. */
  function Lead(text: string, r: Pieces): Pieces {
    Pieces(text + r.first, r.rest)
  }

  /** Reading `text` before `s` meets no border and leads from one state of the scanner to another. */
  ghost predicate Reads(m: Mode, esc: bool, text: string, n: Mode, e: bool, s: string) {
    && Raw(m, esc, text + s) == Lead(text, Raw(n, e, s))
    && EndMode(m, esc, text + s) == EndMode(n, e, s)
  }

  lemma ReadNothing(m: Mode, esc: bool, s: string)
    ensures Reads(m, esc, "", m, esc, s)
  {
    assert "" + s == s && "" + Raw(m, esc, s).first == Raw(m, esc, s).first;
  }

  lemma ReadOne(m: Mode, esc: bool, c: char, s: string, n: Mode)
    requires !Border(m, c) && n == Next(m, esc, c, if s == "" then None else Some(s[0]))
    ensures Reads(m, esc, [c], n, c == '\\', s)
  {
    var all := [c] + s;
    assert all[0] == c && all[1..] == s && Ahead(all) == if s == "" then None else Some(s[0]);
  }

  lemma ReadOn(m: Mode, esc: bool, a: string, n: Mode, e: bool, b: string, k: Mode, f: bool, s: string)
    requires Reads(m, esc, a, n, e, b + s) && Reads(n, e, b, k, f, s)
    ensures Reads(m, esc, a + b, k, f, s)
  {
    ConcatAssoc(a, b, s);
    ConcatAssoc(a, b, Raw(k, f, s).first);
  }

  lemma Peel(s: string, t: string)
    requires s != ""
    ensures s == [s[0]] + s[1..] && (s[1..] + t != "" ==> (s[1..] + t)[0] == if |s| > 1 then s[1] else t[0])
    ensures |s| > 1 ==> s[1..] != "" && s[1..][0] == s[1]
  {
  }

  lemma {:induction false} ReadInLine(esc: bool, text: string, s: string)
    requires '\n' !in text
    ensures Reads(Line, esc, text, Line, EndsEscaped(esc, text), s)
    decreases |text|
  {
    if text == "" {
      ReadNothing(Line, esc, s);
    } else {
      Peel(text, s);
      ReadInLine(text[0] == '\\', text[1..], s);
      ReadOne(Line, esc, text[0], text[1..] + s, Line);
      ReadOn(Line, esc, [text[0]], Line, text[0] == '\\', text[1..], Line, EndsEscaped(esc, text), s);
    }
  }

  lemma {:induction false} ReadInBlock(esc: bool, text: string, s: string)
    requires NoCloser(text, s)
    ensures Reads(Block, esc, text, Block, EndsEscaped(esc, text), s)
    decreases |text|
  {
    if text == "" {
      ReadNothing(Block, esc, s);
    } else {
      Peel(text, s);
      assert !ClosesAt(text, s, 0);
      forall k: nat | k < |text[1..]|
        ensures !ClosesAt(text[1..], s, k)
      {
        assert !ClosesAt(text, s, k + 1);
      }
      ReadInBlock(text[0] == '\\', text[1..], s);
      ReadOne(Block, esc, text[0], text[1..] + s, Block);
      ReadOn(Block, esc, [text[0]], Block, text[0] == '\\', text[1..], Block, EndsEscaped(esc, text), s);
    }
  }

  /** The scanner inside a quotation. */
  function Inside(quote: char): Mode {
    if quote == '"' then Double else Single
  }

  lemma {:induction false} ReadInQuote(quote: char, esc: bool, text: string, s: string)
    requires IsQuote(quote) && AllEscaped(quote, esc, text)
    ensures Reads(Inside(quote), esc, text, Inside(quote), EndsEscaped(esc, text), s)
    decreases |text|
  {
    var m := Inside(quote);
    if text == "" {
      ReadNothing(m, esc, s);
    } else {
      Peel(text, s);
      assert EscapedAt(quote, esc, text, 0);
      var tail, e := text[1..], text[0] == '\\';
      forall k: nat | k < |tail|
        ensures EscapedAt(quote, e, tail, k)
      {
        assert EscapedAt(quote, esc, text, k + 1);
      }
      ReadInQuote(quote, text[0] == '\\', text[1..], s);
      ReadOne(m, esc, text[0], text[1..] + s, m);
      ReadOn(m, esc, [text[0]], m, text[0] == '\\', text[1..], m, EndsEscaped(esc, text), s);
    }
  }

  /** The mode the scanner is left in by a token that is not finished. */
  function Within(t: Token): Mode {
    match t
    case LineComment(_, _) => Line
    case BlockComment(_, _) => Block
    case Quoted(quote, _, _) => Inside(quote)
    case _ => Code
  }

  /** An opener of two characters. */
  lemma ReadOpener(esc: bool, a: char, b: char, between: Mode, inside: Mode, s: string)
    requires (a == b == '-' && between == ToLine && inside == Line)
             || (a == '/' && b == '*' && between == ToBlock && inside == Block)
    ensures Reads(Code, esc, [a, b], inside, false, s)
  {
    ReadOne(Code, esc, a, [b] + s, between);
    ReadOne(between, false, b, s, inside);
    ReadOn(Code, esc, [a], between, false, [b], inside, false, s);
    assert [a] + [b] == [a, b];
  }

  lemma ReadCloser(esc: bool, s: string)
    ensures Reads(Block, esc, "*/", Code, false, s)
  {
    ReadOne(Block, esc, '*', "/" + s, ToCode);
    ReadOne(ToCode, false, '/', s, Code);
    ReadOn(Block, esc, "*", ToCode, false, "/", Code, false, s);
    assert "*" + "/" == "*/";
  }

  lemma TokenReads(esc: bool, t: Token, s: string)
    requires IsToken(esc, t, s) && t != Semicolon
    ensures Reads(Code, esc, Printed(t), if Finished(t) then Code else Within(t), t == Plain('\\'), s)
  {
    match t
    case Plain(c) =>
      ReadOne(Code, esc, c, s, Code);
    case LineComment(text, done) =>
      var end := if done then "\n" else "";
      ReadOpener(esc, '-', '-', ToLine, Line, text + (end + s));
      ReadInLine(false, text, end + s);
      ReadOn(Code, esc, "--", Line, false, text, Line, EndsEscaped(false, text), end + s);
      if done {
        ReadOne(Line, EndsEscaped(false, text), '\n', s, Code);
      } else {
        ReadEnd(Line, EndsEscaped(false, text), false);
      }
      ReadOn(Code, esc, "--" + text, Line, EndsEscaped(false, text), end, if done then Code else Line, false, s);
    case BlockComment(text, done) =>
      var end := if done then "*/" else "";
      ReadOpener(esc, '/', '*', ToBlock, Block, text + (end + s));
      assert forall k: nat :: k < |text| ==> !ClosesAt(text, end, k) && !ClosesAt(text, end + s, k);
      ReadInBlock(false, text, end + s);
      ReadOn(Code, esc, "/*", Block, false, text, Block, EndsEscaped(false, text), end + s);
      if done {
        ReadCloser(EndsEscaped(false, text), s);
      } else {
        ReadEnd(Block, EndsEscaped(false, text), false);
      }
      ReadOn(Code, esc, "/*" + text, Block, EndsEscaped(false, text), end, if done then Code else Block, false, s);
    case Quoted(quote, text, done) =>
      var end := if done then [quote] else "";
      var m := Inside(quote);
      ReadOne(Code, esc, quote, text + (end + s), m);
      ReadInQuote(quote, false, text, end + s);
      ReadOn(Code, esc, [quote], m, false, text, m, EndsEscaped(false, text), end + s);
      if done {
        ReadOne(m, EndsEscaped(false, text), quote, s, Code);
      } else {
        ReadEnd(m, EndsEscaped(false, text), false);
      }
      ReadOn(Code, esc, [quote] + text, m, EndsEscaped(false, text), end, if done then Code else m, false, s);
  }

  /** At the end of the script it does not matter whether a backslash came last. */
  lemma ReadEnd(m: Mode, esc: bool, e: bool)
    ensures Reads(m, esc, "", m, e, "")
  {
    assert "" + "" == "";
  }

  lemma TokenThen(esc: bool, t: Token, s: string)
    requires IsToken(esc, t, s)
    ensures Raw(Code, esc, Printed(t) + s) == Then(t, Raw(Code, t == Plain('\\'), s))
    ensures EndMode(Code, esc, Printed(t) + s)
         == if Finished(t) then EndMode(Code, t == Plain('\\'), s) else Within(t)
  {
    if t == Semicolon {
      assert (Printed(t) + s)[1..] == s;
    } else {
      TokenReads(esc, t, s);
    }
  }

  /** A script is cut at exactly its semicolon tokens. */
  lemma {:induction false} ScriptCut(esc: bool, ts: seq<Token>)
    requires IsScript(esc, ts)
    ensures Raw(Code, esc, Print(ts)) == Cut(ts)
    decreases |ts|
  {
    if ts != [] {
      ScriptCut(ts[0] == Plain('\\'), ts[1..]);
      TokenThen(esc, ts[0], Print(ts[1..]));
    }
  }

  /** The mode a script leaves the scanner in. */
  function LeftIn(ts: seq<Token>): Mode {
    if ts == [] || Finished(ts[|ts| - 1]) then Code else Within(ts[|ts| - 1])
  }

  lemma {:induction false} ScriptEnd(esc: bool, ts: seq<Token>)
    requires IsScript(esc, ts)
    ensures EndMode(Code, esc, Print(ts)) == LeftIn(ts)
    decreases |ts|
  {
    if ts != [] {
      var t, rest := ts[0], ts[1..];
      ScriptEnd(t == Plain('\\'), rest);
      TokenThen(esc, t, Print(rest));
      if rest != [] { assert rest[|rest| - 1] == ts[|ts| - 1]; }
    }
  }

  lemma {:induction false} CutFirst(ts: seq<Token>)
    ensures Cut(ts).rest == [] <==> Semicolon !in ts
    ensures Semicolon !in ts ==> Cut(ts).first == Print(ts)
    decreases |ts|
  {
    if ts != [] {
      CutFirst(ts[1..]);
      assert ts == [ts[0]] + ts[1..];
    }
  }

  lemma {:induction false} CutConcat(front: seq<Token>, rest: seq<Token>)
    requires Semicolon !in front
    ensures Cut(front + [Semicolon] + rest) == Pieces(Print(front), [Cut(rest).first] + Cut(rest).rest)
    decreases |front|
  {
    if front == [] {
      assert ([Semicolon] + rest)[1..] == rest && [] + [Semicolon] + rest == [Semicolon] + rest;
    } else {
      CutConcat(front[1..], rest);
      assert (front + [Semicolon] + rest)[1..] == front[1..] + [Semicolon] + rest;
    }
  }

  /**
   A text without a semicolon token is one statement, however many semicolons its comments
   and quotations hold; it is closed exactly when its last token is finished.
   */
  lemma OneStatementIff(ts: seq<Token>)
    requires IsScript(false, ts)
    ensures Whole(Print(ts)) <==> Semicolon !in ts
    ensures Closed(Print(ts)) <==> ts == [] || Finished(ts[|ts| - 1])
  {
    ScriptCut(false, ts);
    ScriptEnd(false, ts);
    CutFirst(ts);
  }

  /** A script is cut at its first semicolon token, and the text after it on its own. */
  lemma CutAtSemicolon(front: seq<Token>, rest: seq<Token>)
    requires Semicolon !in front && IsScript(false, front + [Semicolon] + rest)
    ensures RawPieces(Print(front + [Semicolon] + rest)) == [Print(front)] + RawPieces(Print(rest))
  {
    ScriptCut(false, front + [Semicolon] + rest);
    CutConcat(front, rest);
    AfterSemicolon(false, front, rest);
    ScriptCut(false, rest);
  }

  lemma {:induction false} AfterSemicolon(esc: bool, front: seq<Token>, rest: seq<Token>)
    requires IsScript(esc, front + [Semicolon] + rest)
    ensures IsScript(false, rest)
    decreases |front|
  {
    var ts := front + [Semicolon] + rest;
    if front == [] {
      assert ts[1..] == rest;
    } else {
      assert ts[1..] == front[1..] + [Semicolon] + rest;
      AfterSemicolon(front[0] == Plain('\\'), front[1..], rest);
    }
  }

  lemma {:induction false} LineEnd(s: string) returns (text: string, done: bool, rest: string)
    ensures '\n' !in text && s == text + ((if done then "\n" else "") + rest) && (done || rest == "")
    decreases |s|
  {
    if s == "" || s[0] == '\n' {
      text, done, rest := "", s != "", if s == "" then "" else s[1..];
    } else {
      text, done, rest := LineEnd(s[1..]);
      text := [s[0]] + text;
    }
  }

  lemma {:induction false} BlockEnd(s: string) returns (text: string, done: bool, rest: string)
    ensures NoCloser(text, if done then "*/" else "") && (done || rest == "")
    ensures s == text + ((if done then "*/" else "") + rest)
    decreases |s|
  {
    if s == "" {
      text, done, rest := "", false, "";
    } else if s[0] == '*' && |s| > 1 && s[1] == '/' {
      text, done, rest := "", true, s[2..];
    } else {
      var tail;
      tail, done, rest := BlockEnd(s[1..]);
      text := [s[0]] + tail;
      var after := if done then "*/" else "";
      forall k: nat | k < |text|
        ensures !ClosesAt(text, after, k)
      {
        if k > 0 { assert !ClosesAt(tail, after, k - 1); }
      }
    }
  }

  lemma {:induction false} QuoteEnd(quote: char, esc: bool, s: string)
    returns (text: string, done: bool, rest: string)
    ensures AllEscaped(quote, esc, text) && (done ==> !EndsEscaped(esc, text)) && (done || rest == "")
    ensures s == text + ((if done then [quote] else "") + rest)
    decreases |s|
  {
    if s == "" {
      text, done, rest := "", false, "";
    } else if s[0] == quote && !esc {
      text, done, rest := "", true, s[1..];
    } else {
      var tail;
      tail, done, rest := QuoteEnd(quote, s[0] == '\\', s[1..]);
      text := [s[0]] + tail;
      forall k: nat | k < |text|
        ensures EscapedAt(quote, esc, text, k)
      {
        if k > 0 { assert EscapedAt(quote, s[0] == '\\', tail, k - 1); }
      }
    }
  }

  lemma Glued(s: string, opener: string, text: string, end: string, rest: string)
    requires opener <= s && s[|opener|..] == text + (end + rest)
    ensures s == (opener + text + end) + rest
  {
    assert s == opener + s[|opener|..];
  }

  lemma FirstToken(esc: bool, s: string) returns (t: Token, rest: string)
    requires s != ""
    ensures IsToken(esc, t, rest) && s == Printed(t) + rest
  {
    var text, done;
    if "--" <= s {
      text, done, rest := LineEnd(s[2..]);
      t := LineComment(text, done);
      Glued(s, "--", text, if done then "\n" else "", rest);
    } else if "/*" <= s {
      text, done, rest := BlockEnd(s[2..]);
      t := BlockComment(text, done);
      Glued(s, "/*", text, if done then "*/" else "", rest);
    } else if IsQuote(s[0]) && !esc {
      text, done, rest := QuoteEnd(s[0], false, s[1..]);
      t := Quoted(s[0], text, done);
      Glued(s, [s[0]], text, if done then [s[0]] else "", rest);
    } else {
      t, rest := PlainToken(esc, s);
    }
  }

  lemma PlainToken(esc: bool, s: string) returns (t: Token, rest: string)
    requires s != "" && !("--" <= s) && !("/*" <= s) && (IsQuote(s[0]) ==> esc)
    ensures IsToken(esc, t, rest) && s == Printed(t) + rest
  {
    t, rest := if s[0] == ';' then Semicolon else Plain(s[0]), s[1..];
    if rest != "" { assert s[..2] == [s[0], rest[0]]; }
  }

  /** Every text is a script of tokens. */
  lemma {:induction false} EveryTextIsScript(esc: bool, s: string) returns (ts: seq<Token>)
    ensures IsScript(esc, ts) && Print(ts) == s
    decreases |s|
  {
    ts := [];
    if s != "" {
      var t, rest := FirstToken(esc, s);
      var tail := EveryTextIsScript(t == Plain('\\'), rest);
      ts := [t] + tail;
      assert ts[1..] == tail;
    }
  }

  // ---------------------------------------------------------------- main results

  /**
   The untrimmed pieces, joined with semicolons, are the script; none has a border
   of its own, and all but the last end outside quotes and comments.
   */
  lemma PiecesTile(input: string)
    ensures Join(RawPieces(input), ";") == input
    ensures forall k :: 0 <= k < |RawPieces(input)| ==> Whole(RawPieces(input)[k])
    ensures forall k :: 0 <= k < |RawPieces(input)| - 1 ==> Closed(RawPieces(input)[k])
  {
    var r := Raw(Code, false, input);
    RawJoins(Code, false, input);
    PrefixWhole(Code, false, input, r.first);
    if r.rest != [] { FirstPieceCloses(Code, false, input); }
    forall k | 0 <= k < |r.rest|
      ensures Whole(r.rest[k]) && (k < |r.rest| - 1 ==> Closed(r.rest[k]))
    {
      LaterPieces(Code, false, input, k);
    }
  }

  /** And that is the only way to cut the script so. */
  lemma {:induction false} PiecesUnique(pieces: seq<string>)
    requires pieces != []
    requires forall k :: 0 <= k < |pieces| ==> Whole(pieces[k])
    requires forall k :: 0 <= k < |pieces| - 1 ==> Closed(pieces[k])
    ensures RawPieces(Join(pieces, ";")) == pieces
  {
    if |pieces| > 1 {
      PiecesUnique(pieces[1..]);
      RawAppend(Code, false, pieces[0], Join(pieces[1..], ";"));
    }
  }

  /** Statements a script can be made of: not empty, trimmed, without a top-level semicolon. */
  predicate Statement(s: string) {
    s != "" && Trimmed(s) && Whole(s)
  }

  /**
   Splitting undoes joining exactly when every statement but the last ends outside
   quotes and comments.
   */
  lemma {:induction false} SplitUndoesJoin(stmts: seq<string>)
    requires forall k :: 0 <= k < |stmts| ==> Statement(stmts[k])
    ensures Statements(Join(stmts, ";")) == stmts
       <==> forall k :: 0 <= k < |stmts| - 1 ==> Closed(stmts[k])
  {
    if stmts == [] {
      assert Statements("") == [];
    } else {
      var head, tail := stmts[0], stmts[1..];
      TrimmedFixed(head);
      assert stmts == [head] + tail;
      if tail == [] {
        CleanOne(head);
      } else {
        var text := Join(tail, ";");
        var r := Raw(Code, false, head + ";" + text);
        RawAppend(Code, false, head, text);
        assert RawPieces(Join(stmts, ";")) == [r.first] + r.rest;
        SplitUndoesJoin(tail);
        if Closed(head) {
          assert ([r.first] + r.rest)[1..] == RawPieces(text);
          assert forall k :: 1 <= k < |stmts| - 1 ==> stmts[k] == tail[k - 1];
          assert forall k :: 0 <= k < |tail| - 1 ==> tail[k] == stmts[k + 1];
        } else {
          assert r.first[0] == head[0] && r.first[|head|] == ';';
          TrimKeeps(r.first, |head|);
          assert Statements(Join(stmts, ";"))[0] == Trim(r.first);
        }
      }
    }
  }

  lemma CleanOne(piece: string)
    ensures Clean([piece]) == Kept(piece)
  {
    assert [piece][1..] == [];
  }

  lemma {:induction false} LeadingSpace(lead: string, s: string)
    requires Blank(lead)
    ensures Raw(Code, false, lead + s) == Pieces(lead + Raw(Code, false, s).first, Raw(Code, false, s).rest)
  {
    var first := Raw(Code, false, s).first;
    if lead == "" {
      assert lead + s == s && lead + first == first;
    } else {
      var fore, c := lead[..|lead| - 1], lead[|lead| - 1];
      assert lead == fore + [c];
      OneSpace(c, s);
      LeadingSpace(fore, [c] + s);
      Reglue(fore, c, s);
      Reglue(fore, c, first);
    }
  }

  lemma Reglue(fore: string, c: char, s: string)
    ensures fore + ([c] + s) == (fore + [c]) + s
  {
  }

  lemma OneSpace(c: char, s: string)
    requires IsSpace(c)
    ensures Raw(Code, false, [c] + s) == Pieces([c] + Raw(Code, false, s).first, Raw(Code, false, s).rest)
  {
    var all := [c] + s;
    assert all[0] == c && all[1..] == s;
    assert Next(Code, false, c, Ahead(all)) == Code;
  }

  lemma SameEnd(lead: string, a: string, b: string)
    requires lead + a == lead + b
    ensures a == b
  {
    assert a == (lead + a)[|lead|..] == (lead + b)[|lead|..] == b;
  }

  lemma TrimmedWhole(piece: string)
    requires Whole(piece)
    ensures Whole(Trim(piece))
  {
    var lead, trail := TrimParts(piece);
    var core := Trim(piece);
    assert piece == lead + (core + trail);
    LeadingSpace(lead, core + trail);
    SameEnd(lead, Raw(Code, false, core + trail).first, core + trail);
    PrefixWhole(Code, false, core + trail, core);
  }

  lemma {:induction false} CleanMembers(pieces: seq<string>, k: nat)
    requires k < |Clean(pieces)|
    ensures exists j :: 0 <= j < |pieces| && Clean(pieces)[k] == Trim(pieces[j]) != ""
  {
    var kept := |Kept(pieces[0])|;
    if k >= kept {
      CleanMembers(pieces[1..], k - kept);
      var j :| 0 <= j < |pieces[1..]| && Clean(pieces[1..])[k - kept] == Trim(pieces[1..][j]) != "";
      assert pieces[1..][j] == pieces[j + 1];
    }
  }

  /** Every statement that comes out is a statement, and splits to itself alone. */
  lemma SplitStable(input: string, k: nat)
    requires k < |Statements(input)|
    ensures Statement(Statements(input)[k])
    ensures Statements(Statements(input)[k]) == [Statements(input)[k]]
  {
    var pieces := RawPieces(input);
    CleanMembers(pieces, k);
    var j :| 0 <= j < |pieces| && Statements(input)[k] == Trim(pieces[j]) != "";
    PiecesTile(input);
    TrimmedWhole(pieces[j]);
    var lead, trail := TrimParts(pieces[j]);
    TrimmedFixed(Trim(pieces[j]));
    CleanOne(Trim(pieces[j]));
  }
}
