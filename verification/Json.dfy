/**
 JSON texts as RFC 8259 defines them (sections 2 to 7): a concrete syntax tree that
 keeps every optional blank, and the text each tree stands for. A text is JSON
 exactly when some well-formed tree prints to it.
 */
module Json {
  import opened Text

  datatype Kind = Object | Array

  datatype Value =
    | Scalar(scalar: Scalar)
    | Str(body: seq<Piece>)
    | Group(kind: Kind, items: Items)

  /** What stands between a pair of brackets. */
  datatype Items =
    | Empty(pad: string)
    | Last(entry: Entry)
    | More(entry: Entry, rest: Items)

  /** An array element, or an object member when it has a key. */
  datatype Entry = Entry(key: Option<Key>, pre: string, value: Value, post: string)

  datatype Key = Key(pre: string, name: seq<Piece>, post: string)

  /** One character of a string, escaped or not (section 7). */
  datatype Piece =
    | Plain(c: char)
    | Escape(c: char)
    | Unicode(h0: char, h1: char, h2: char, h3: char)

  /** Literal names (section 3) and numbers (section 6). */
  datatype Scalar =
    | True
    | False
    | Null
    | Number(minus: bool, whole: string, frac: Option<string>, exp: Option<Exponent>)

  datatype Exponent = Exponent(letter: char, sign: Option<char>, digits: string)

  // ---------------------------------------------------------------- printing

  function Open(k: Kind): char { if k.Object? then '{' else '[' }

  function Close(k: Kind): char { if k.Object? then '}' else ']' }

  function PieceText(p: Piece): string {
    match p
    case Plain(c) => [c]
    case Escape(c) => ['\\', c]
    case Unicode(h0, h1, h2, h3) => ['\\', 'u', h0, h1, h2, h3]
  }

  function BodyText(body: seq<Piece>): string {
    if body == [] then "" else PieceText(body[0]) + BodyText(body[1..])
  }

  function StrText(body: seq<Piece>): string {
    "\"" + (BodyText(body) + "\"")
  }

  function ScalarText(s: Scalar): string {
    match s
    case True => "true"
    case False => "false"
    case Null => "null"
    case Number(minus, whole, frac, exp) =>
      (if minus then "-" else "") + (whole + (FracText(frac) + ExpText(exp)))
  }

  function FracText(frac: Option<string>): string {
    match frac case None => "" case Some(digits) => "." + digits
  }

  function ExpText(exp: Option<Exponent>): string {
    match exp
    case None => ""
    case Some(Exponent(letter, sign, digits)) =>
      [letter] + ((match sign case None => "" case Some(c) => [c]) + digits)
  }

  function Print(v: Value): string {
    match v
    case Scalar(s) => ScalarText(s)
    case Str(body) => StrText(body)
    case Group(kind, items) => [Open(kind)] + (ItemsText(items) + [Close(kind)])
  }

  function ItemsText(items: Items): string {
    match items
    case Empty(pad) => pad
    case Last(e) => EntryText(e)
    case More(e, rest) => EntryText(e) + ("," + ItemsText(rest))
  }

  function EntryText(e: Entry): string {
    KeyText(e.key) + (e.pre + (Print(e.value) + e.post))
  }

  function KeyText(key: Option<Key>): string {
    match key
    case None => ""
    case Some(Key(pre, name, post)) => pre + (StrText(name) + (post + ":"))
  }

  // ---------------------------------------------------------------- well-formedness

  /** The insignificant whitespace of section 2. */
  predicate Spaces(s: string) {
    forall i :: 0 <= i < |s| ==> s[i] == ' ' || s[i] == '\t' || s[i] == '\n' || s[i] == '\r'
  }

  predicate Hex(c: char) {
    '0' <= c <= '9' || 'a' <= c <= 'f' || 'A' <= c <= 'F'
  }

  predicate PieceOk(p: Piece) {
    match p
    case Plain(c) => ' ' <= c && c != '"' && c != '\\'
    case Escape(c) =>
      c == '"' || c == '\\' || c == '/' || c == 'b' || c == 'f' || c == 'n' || c == 'r' || c == 't'
    case Unicode(h0, h1, h2, h3) => Hex(h0) && Hex(h1) && Hex(h2) && Hex(h3)
  }

  predicate BodyOk(body: seq<Piece>) {
    forall i :: 0 <= i < |body| ==> PieceOk(body[i])
  }

  predicate Digits(s: string) {
    s != "" && AllDigits(s)
  }

  predicate ScalarOk(s: Scalar) {
    match s
    case Number(minus, whole, frac, exp) =>
      && Digits(whole) && (whole[0] == '0' ==> |whole| == 1)
      && (frac.Some? ==> Digits(frac.value))
      && (exp.Some? ==> ExponentOk(exp.value))
    case _ => true
  }

  predicate ExponentOk(e: Exponent) {
    && (e.letter == 'e' || e.letter == 'E')
    && (e.sign.Some? ==> e.sign.value == '+' || e.sign.value == '-')
    && Digits(e.digits)
  }

  predicate Ok(v: Value)
    decreases v
  {
    match v
    case Scalar(s) => ScalarOk(s)
    case Str(body) => BodyOk(body)
    case Group(kind, items) => ItemsOk(kind, items)
  }

  predicate ItemsOk(kind: Kind, items: Items)
    decreases items
  {
    match items
    case Empty(pad) => Spaces(pad)
    case Last(e) => EntryOk(kind, e)
    case More(e, rest) => EntryOk(kind, e) && !rest.Empty? && ItemsOk(kind, rest)
  }

  predicate EntryOk(kind: Kind, e: Entry)
    decreases e
  {
    && (kind.Object? <==> e.key.Some?)
    && (e.key.Some? ==> KeyOk(e.key.value))
    && Spaces(e.pre) && Ok(e.value) && Spaces(e.post)
  }

  predicate KeyOk(k: Key) {
    Spaces(k.pre) && BodyOk(k.name) && Spaces(k.post)
  }

  /** A JSON text (section 2): one value with blanks around it. */
  ghost predicate IsJson(text: string) {
    exists pre, v, post :: Spaces(pre) && Ok(v) && Spaces(post) && text == pre + (Print(v) + post)
  }

  // ---------------------------------------------------------------- quotes

  /** Where a character scanner stands with respect to string literals. */
  datatype Quote = Out | In | Escaped

  /** How both scanners of the source follow quotes and backslashes. */
  function NextQuote(q: Quote, c: char): Quote {
    match q
    case Out => if c == '"' then In else Out
    case In => if c == '\\' then Escaped else if c == '"' then Out else In
    case Escaped => In
  }

  /** Where a scanner stands that has read `s` from outside strings. */
  function QuoteAfter(s: string): Quote {
    if s == "" then Out else NextQuote(QuoteAfter(s[..|s| - 1]), s[|s| - 1])
  }

  /** What can stand in a string literal: any character but quote and backslash, and a backslash with any other. */
  predicate LiteralBody(s: string) {
    s == "" || (s[0] != '"' && s[0] != '\\' && LiteralBody(s[1..]))
    || (s[0] == '\\' && |s| > 1 && LiteralBody(s[2..]))
  }

  lemma QuoteSnoc(s: string, c: char)
    ensures QuoteAfter(s + [c]) == NextQuote(QuoteAfter(s), c)
  {
    assert (s + [c])[..|s|] == s;
  }

  lemma {:induction false} InLiteral(a: string, body: string)
    requires QuoteAfter(a) == In && LiteralBody(body)
    ensures QuoteAfter(a + body) == In
    decreases |body|
  {
    if body == "" {
      assert a + body == a;
    } else if body[0] != '\\' {
      QuoteSnoc(a, body[0]);
      InLiteral(a + [body[0]], body[1..]);
      assert a + body == a + [body[0]] + body[1..];
    } else {
      QuoteSnoc(a, body[0]);
      QuoteSnoc(a + [body[0]], body[1]);
      InLiteral(a + [body[0]] + [body[1]], body[2..]);
      assert a + body == a + [body[0]] + [body[1]] + body[2..];
    }
  }

  /** So a text is read, JSON or not: outside, through literals, and within one that has not ended. */
  lemma QuotesRead(a: string, c: char, body: string)
    requires QuoteAfter(a) == Out && LiteralBody(body)
    ensures c != '"' ==> QuoteAfter(a + [c]) == Out
    ensures QuoteAfter(a + ['"'] + body) == In
    ensures QuoteAfter(a + ['"'] + body + ['"']) == Out
    ensures QuoteAfter(a + ['"'] + body + ['\\']) == Escaped
  {
    QuoteSnoc(a, c);
    QuoteSnoc(a, '"');
    InLiteral(a + ['"'], body);
    QuoteSnoc(a + ['"'] + body, '"');
    QuoteSnoc(a + ['"'] + body, '\\');
  }

  /** Text with no character that means anything to a bracket scanner outside strings. */
  predicate Inert(s: string) {
    forall i :: 0 <= i < |s| ==> InertChar(s[i])
  }

  predicate InertChar(c: char) {
    c != '"' && c != '{' && c != '}' && c != '[' && c != ']'
  }

  lemma ScalarInert(s: Scalar)
    requires ScalarOk(s)
    ensures Inert(ScalarText(s)) && ScalarText(s) != ""
  {
    match s
    case Number(minus, whole, frac, exp) =>
      FracInert(frac);
      ExpInert(exp);
    case _ =>
  }

  lemma FracInert(frac: Option<string>)
    requires frac.Some? ==> Digits(frac.value)
    ensures Inert(FracText(frac))
  {
  }

  lemma ExpInert(exp: Option<Exponent>)
    requires exp.Some? ==> ExponentOk(exp.value)
    ensures Inert(ExpText(exp))
  {
  }

  lemma SpacesInert(s: string)
    requires Spaces(s)
    ensures Inert(s)
  {
  }
}
