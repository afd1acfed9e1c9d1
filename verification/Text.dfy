/**
 Strings as the JavaScript built-ins see them: `trim`, `split`, `join` and the
 decimal printing of a number inside a template literal.
 */
module Text {

  datatype Option<+T> = None | Some(value: T)

  /** The characters `String.prototype.trim` removes. */
  predicate IsSpace(c: char) {
    || '\t' <= c <= '\r'
    || c == ' ' || c == '\U{00A0}' || c == '\U{1680}' || c == '\U{2028}' || c == '\U{2029}'
    || c == '\U{202F}' || c == '\U{205F}' || c == '\U{3000}' || c == '\U{FEFF}'
    || '\U{2000}' <= c <= '\U{200A}'
  }

  predicate Blank(s: string) {
    forall i :: 0 <= i < |s| ==> IsSpace(s[i])
  }

  predicate Trimmed(s: string) {
    s == "" || (!IsSpace(s[0]) && !IsSpace(s[|s| - 1]))
  }

  function TrimStart(s: string): string {
    if s != "" && IsSpace(s[0]) then TrimStart(s[1..]) else s
  }

  function TrimEnd(s: string): string {
    if s != "" && IsSpace(s[|s| - 1]) then TrimEnd(s[..|s| - 1]) else s
  }

  function Trim(s: string): string {
    TrimEnd(TrimStart(s))
  }

  lemma {:induction false} TrimStartParts(s: string) returns (lead: string)
    ensures Blank(lead) && s == lead + TrimStart(s)
    ensures TrimStart(s) == "" || !IsSpace(TrimStart(s)[0])
  {
    lead := "";
    if s != "" && IsSpace(s[0]) {
      var rest := TrimStartParts(s[1..]);
      lead := [s[0]] + rest;
    }
  }

  lemma {:induction false} TrimEndParts(s: string) returns (trail: string)
    ensures Blank(trail) && s == TrimEnd(s) + trail
    ensures TrimEnd(s) == "" || !IsSpace(TrimEnd(s)[|TrimEnd(s)| - 1])
  {
    trail := "";
    if s != "" && IsSpace(s[|s| - 1]) {
      var rest := TrimEndParts(s[..|s| - 1]);
      trail := rest + [s[|s| - 1]];
    }
  }

  /** Trimming cuts a blank piece off either side and leaves no space at the ends. */
  lemma TrimParts(s: string) returns (lead: string, trail: string)
    ensures Blank(lead) && Blank(trail) && s == lead + Trim(s) + trail && Trimmed(Trim(s))
  {
    lead := TrimStartParts(s);
    trail := TrimEndParts(TrimStart(s));
    var core := TrimStart(s);
    assert core == Trim(s) + trail;
    assert Trim(s) != "" ==> Trim(s)[0] == core[0];
  }

  lemma TrimmedFixed(s: string)
    ensures Trimmed(s) ==> Trim(s) == s
  {
  }

  lemma {:induction false} BlankTrims(s: string)
    requires Blank(s)
    ensures Trim(s) == ""
  {
    var lead, trail := TrimParts(s);
    assert forall i :: 0 <= i < |Trim(s)| ==> Trim(s)[i] == s[|lead| + i];
  }

  /** A trimmed text keeps everything up to any of its non-space characters. */
  lemma TrimKeeps(s: string, i: nat)
    requires i < |s| && !IsSpace(s[0]) && !IsSpace(s[i])
    ensures s[..i + 1] <= Trim(s)
  {
    assert TrimStart(s) == s;
    var trail := TrimEndParts(s);
    assert forall k :: |Trim(s)| <= k < |s| ==> s[k] == trail[k - |Trim(s)|];
  }

  lemma ConcatAssoc<T>(a: seq<T>, b: seq<T>, c: seq<T>)
    ensures a + (b + c) == a + b + c
  {
  }

  /** `text.split(sep)` for a one-character separator: never empty. */
  function Split(s: string, sep: char): (parts: seq<string>)
    ensures |parts| >= 1
  {
    SplitFrom("", s, sep)
  }

  /** Splitting goes on with `buf` read since the last separator. */
  function SplitFrom(buf: string, s: string, sep: char): (parts: seq<string>)
    ensures |parts| >= 1
    decreases |s|
  {
    if s == "" then [buf]
    else if s[0] == sep then [buf] + SplitFrom("", s[1..], sep)
    else SplitFrom(buf + [s[0]], s[1..], sep)
  }

  function Front<T>(parts: seq<T>): seq<T>
    requires parts != []
  {
    parts[..|parts| - 1]
  }

  function End<T>(parts: seq<T>): T
    requires parts != []
  {
    parts[|parts| - 1]
  }

  /** More text only ever touches the last part. */
  lemma {:induction false} SplitFromConcat(buf: string, a: string, b: string, sep: char)
    ensures var parts := SplitFrom(buf, a, sep);
            SplitFrom(buf, a + b, sep) == Front(parts) + SplitFrom(End(parts), b, sep)
    decreases |a|
  {
    if a == "" {
      assert a + b == b;
    } else {
      assert (a + b)[1..] == a[1..] + b;
      if a[0] == sep {
        var rest := SplitFrom("", a[1..], sep);
        SplitFromConcat("", a[1..], b, sep);
        assert Front([buf] + rest) == [buf] + Front(rest);
        ConcatAssoc([buf], Front(rest), SplitFrom(End(rest), b, sep));
      } else {
        SplitFromConcat(buf + [a[0]], a[1..], b, sep);
      }
    }
  }

  lemma {:induction false} SplitFromPlain(buf: string, s: string, sep: char)
    requires sep !in s
    ensures SplitFrom(buf, s, sep) == [buf + s]
    decreases |s|
  {
    if s == "" {
      assert buf + s == buf;
    } else {
      assert forall c :: c in s[1..] ==> c in s;
      SplitFromPlain(buf + [s[0]], s[1..], sep);
      assert buf + [s[0]] + s[1..] == buf + s;
    }
  }

  /** Splitting and joining: the parts hold no separator, and joined they are the text. */
  lemma {:induction false} SplitJoins(buf: string, s: string, sep: char)
    requires sep !in buf
    ensures Join(SplitFrom(buf, s, sep), [sep]) == buf + s
    ensures forall k :: 0 <= k < |SplitFrom(buf, s, sep)| ==> sep !in SplitFrom(buf, s, sep)[k]
    decreases |s|
  {
    if s == "" {
      assert buf + s == buf;
    } else if s[0] == sep {
      SplitJoins("", s[1..], sep);
      JoinCons(buf, SplitFrom("", s[1..], sep), [sep]);
      assert buf + [sep] + ("" + s[1..]) == buf + s;
    } else {
      SplitJoins(buf + [s[0]], s[1..], sep);
      assert buf + [s[0]] + s[1..] == buf + s;
    }
  }

  /** `parts.join(sep)`. */
  function Join(parts: seq<string>, sep: string): string {
    if parts == [] then ""
    else if |parts| == 1 then parts[0]
    else parts[0] + sep + Join(parts[1..], sep)
  }

  lemma JoinCons(head: string, tail: seq<string>, sep: string)
    requires tail != []
    ensures Join([head] + tail, sep) == head + sep + Join(tail, sep)
  {
    assert ([head] + tail)[1..] == tail;
  }

  lemma {:induction false} JoinConcat(a: seq<string>, b: seq<string>, sep: string)
    requires a != [] && b != []
    ensures Join(a + b, sep) == Join(a, sep) + sep + Join(b, sep)
    decreases |a|
  {
    assert a == [a[0]] + a[1..];
    if |a| == 1 {
      assert a + b == [a[0]] + b;
      JoinCons(a[0], b, sep);
    } else {
      assert a + b == [a[0]] + (a[1..] + b);
      JoinConcat(a[1..], b, sep);
      JoinCons(a[0], a[1..] + b, sep);
      assert a[0] + sep + (Join(a[1..], sep) + sep + Join(b, sep))
          == a[0] + sep + Join(a[1..], sep) + sep + Join(b, sep);
    }
  }

  /** Gluing text in front of the first part glues it in front of the whole. */
  lemma JoinPrefix(pre: string, parts: seq<string>, sep: string)
    requires parts != []
    ensures Join([pre + parts[0]] + parts[1..], sep) == pre + Join(parts, sep)
  {
    assert [parts[0]] + parts[1..] == parts;
    if |parts| > 1 {
      JoinCons(pre + parts[0], parts[1..], sep);
      assert pre + parts[0] + sep + Join(parts[1..], sep)
          == pre + (parts[0] + sep + Join(parts[1..], sep));
    }
  }

  /** A non-negative number printed in base ten, as in a template literal. */
  function Decimal(n: nat): (s: string)
    ensures |s| >= 1 && forall i :: 0 <= i < |s| ==> '0' <= s[i] <= '9'
  {
    if n < 10 then [Digit(n)] else Decimal(n / 10) + [Digit(n % 10)]
  }

  function Digit(d: nat): (c: char)
    requires d < 10
    ensures '0' <= c <= '9' && DigitValue(c) == d
  {
    "0123456789"[d]
  }

  function DigitValue(c: char): nat
    requires '0' <= c <= '9'
  {
    (c - '0') as nat
  }

  predicate AllDigits(s: string) {
    forall i :: 0 <= i < |s| ==> '0' <= s[i] <= '9'
  }

  /** `Number(digits)`. */
  function ParseDecimal(s: string): nat
    requires AllDigits(s)
  {
    if s == "" then 0 else 10 * ParseDecimal(s[..|s| - 1]) + DigitValue(s[|s| - 1])
  }

  lemma {:induction false} DecimalRoundTrip(n: nat)
    ensures ParseDecimal(Decimal(n)) == n
  {
    var s := Decimal(n);
    if n >= 10 {
      DecimalRoundTrip(n / 10);
      assert s[..|s| - 1] == Decimal(n / 10);
    } else {
      assert s[..0] == "";
    }
  }

  /** The digits a text begins with. */
  function DigitPrefix(s: string): (d: string)
    ensures AllDigits(d)
  {
    if s == "" || !('0' <= s[0] <= '9') then "" else [s[0]] + DigitPrefix(s[1..])
  }

  lemma {:induction false} DigitPrefixOf(digits: string, rest: string)
    requires AllDigits(digits) && (rest == "" || !('0' <= rest[0] <= '9'))
    ensures DigitPrefix(digits + rest) == digits
    decreases |digits|
  {
    if digits == "" {
      assert digits + rest == rest;
    } else {
      assert (digits + rest)[1..] == digits[1..] + rest;
      DigitPrefixOf(digits[1..], rest);
    }
  }
}
