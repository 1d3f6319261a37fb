/** JSON values and the text that JSON.stringify prints for them (RFC 8259 sections 4, 5, 7).

    Strings are well-formed Unicode text. A number is identified with the literal that
    JSON.stringify prints for it. */
module Json {
  import opened Wrappers

  datatype Json =
    | Null
    | Bool(b: bool)
    | Num(literal: string)
    | Str(text: string)
    | Arr(items: seq<Json>)
    | Obj(props: seq<Prop>)

  datatype Prop = Prop(key: string, value: Json)

  predicate NumberChar(c: char) {
    '0' <= c <= '9' || c in {'-', '+', '.', 'e', 'E'}
  }

  predicate NumberLiteral(s: string) {
    && s != "" && ('0' <= s[0] <= '9' || s[0] == '-')
    && forall i :: 0 <= i < |s| ==> NumberChar(s[i])
  }

  predicate DistinctKeys(ps: seq<Prop>) {
    forall i, j :: 0 <= i < j < |ps| ==> ps[i].key != ps[j].key
  }

  predicate WellFormed(j: Json) {
    match j
    case Num(literal) => NumberLiteral(literal)
    case Arr(items) => forall i :: 0 <= i < |items| ==> WellFormed(items[i])
    case Obj(props) => DistinctKeys(props) && forall i :: 0 <= i < |props| ==> WellFormed(props[i].value)
    case _ => true
  }

  // --- Printing -----------------------------------------------------------------------

  function HexDigit(n: nat): char
    requires n < 16
  {
    "0123456789abcdef"[n]
  }

  predicate Plain(c: char) {
    c as int >= 0x20 && c != '"' && c != '\\'
  }

  function EscapeChar(c: char): string {
    if Plain(c) then [c]
    else if c == '"' then "\\\""
    else if c == '\\' then "\\\\"
    else if c as int == 8 then "\\b"
    else if c as int == 12 then "\\f"
    else if c == '\n' then "\\n"
    else if c == '\r' then "\\r"
    else if c == '\t' then "\\t"
    else "\\u00" + [HexDigit(c as int / 16), HexDigit(c as int % 16)]
  }

  // The printers take the text that follows, so that Print(j, rest) is JSON.stringify(j) + rest.

  function PrintString(s: string, rest: string): string {
    ['"'] + PrintChars(s, rest)
  }

  function PrintChars(s: string, rest: string): string {
    if s == "" then ['"'] + rest else EscapeChar(s[0]) + PrintChars(s[1..], rest)
  }

  function Print(j: Json, rest: string): string {
    match j
    case Null => "null" + rest
    case Bool(b) => (if b then "true" else "false") + rest
    case Num(literal) => literal + rest
    case Str(s) => PrintString(s, rest)
    case Arr(items) =>
      if items == [] then ['['] + ([']'] + rest)
      else ['['] + Print(items[0], PrintItems(items[1..], rest))
    case Obj(props) =>
      if props == [] then ['{'] + (['}'] + rest)
      else ['{'] + PrintProp(props[0], PrintProps(props[1..], rest))
  }

  /** The items after the first, and the closing bracket. */
  function PrintItems(items: seq<Json>, rest: string): string {
    if items == [] then [']'] + rest else [','] + Print(items[0], PrintItems(items[1..], rest))
  }

  function PrintProp(p: Prop, rest: string): string {
    PrintString(p.key, [':'] + Print(p.value, rest))
  }

  /** The properties after the first, and the closing brace. */
  function PrintProps(props: seq<Prop>, rest: string): string {
    if props == [] then ['}'] + rest else [','] + PrintProp(props[0], PrintProps(props[1..], rest))
  }

  function Text(j: Json): string {
    Print(j, "")
  }

  // --- Parsing --------------------------------------------------------------------------

  // An independent reader of compact JSON text. It takes a prefix and returns what follows it.
  // Blanks between tokens and escaped surrogates, neither of which is ever printed, are refused.

  datatype Parsed<T> = Parsed(value: T, rest: string)

  function HexValue(c: char): Option<nat> {
    if '0' <= c <= '9' then Some((c - '0') as nat)
    else if 'a' <= c <= 'f' then Some((c - 'a') as nat + 10)
    else if 'A' <= c <= 'F' then Some((c - 'A') as nat + 10)
    else None
  }

  function HexNumber(s: string): Option<nat> {
    if s == "" then Some(0)
    else
      var front, digit := HexNumber(s[..|s| - 1]), HexValue(s[|s| - 1]);
      if front.Some? && digit.Some? then Some(16 * front.value + digit.value) else None
  }

  /** The character that a two-character escape stands for. */
  function ShortEscape(c: char): Option<char> {
    match c
    case '"' => Some('"')
    case '\\' => Some('\\')
    case '/' => Some('/')
    case 'b' => Some(8 as char)
    case 'f' => Some(12 as char)
    case 'n' => Some('\n')
    case 'r' => Some('\r')
    case 't' => Some('\t')
    case _ => None
  }

  function ParseChar(t: string): (r: Option<Parsed<char>>)
    requires t != ""
    ensures r.Some? ==> |r.value.rest| < |t|
  {
    if t[0] != '\\' then if t[0] as int < 0x20 then None else Some(Parsed(t[0], t[1..]))
    else if |t| >= 6 && t[1] == 'u' then
      var code := HexNumber(t[2..6]);
      if code.Some? && (code.value < 0xD800 || 0xE000 <= code.value < 0x10000)
      then Some(Parsed(code.value as char, t[6..])) else None
    else if |t| >= 2 && ShortEscape(t[1]).Some? then Some(Parsed(ShortEscape(t[1]).value, t[2..]))
    else None
  }

  /** The rest of a string literal whose opening quote has been read. */
  function ParseChars(t: string): (r: Option<Parsed<string>>)
    ensures r.Some? ==> |r.value.rest| < |t|
    decreases |t|
  {
    if t == "" then None
    else if t[0] == '"' then Some(Parsed("", t[1..]))
    else
      var c := ParseChar(t);
      if c.None? then None
      else
        var s := ParseChars(c.value.rest);
        if s.None? then None else Some(Parsed([c.value.value] + s.value.value, s.value.rest))
  }

  function NumberSpan(t: string): (n: nat)
    ensures n <= |t|
  {
    if t == "" || !NumberChar(t[0]) then 0 else 1 + NumberSpan(t[1..])
  }

  function ParseWord(word: string, j: Json, t: string): (r: Option<Parsed<Json>>)
    requires word != ""
    ensures r.Some? ==> |r.value.rest| < |t|
  {
    if word <= t then Some(Parsed(j, t[|word|..])) else None
  }

  function ParseValue(t: string): (r: Option<Parsed<Json>>)
    ensures r.Some? ==> |r.value.rest| < |t|
    decreases |t|, 1
  {
    if t == "" then None
    else match t[0]
      case 'n' => ParseWord("null", Null, t)
      case 't' => ParseWord("true", Bool(true), t)
      case 'f' => ParseWord("false", Bool(false), t)
      case '"' =>
        var s := ParseChars(t[1..]);
        if s.None? then None else Some(Parsed(Str(s.value.value), s.value.rest))
      case '[' => ParseArray(t[1..])
      case '{' => ParseObject(t[1..])
      case _ =>
        var n := NumberSpan(t);
        if NumberLiteral(t[..n]) then Some(Parsed(Num(t[..n]), t[n..])) else None
  }

  /** An array whose opening bracket has been read. */
  function ParseArray(t: string): (r: Option<Parsed<Json>>)
    ensures r.Some? ==> |r.value.rest| < |t|
    decreases |t|, 3
  {
    if t != "" && t[0] == ']' then Some(Parsed(Arr([]), t[1..]))
    else
      var first := ParseValue(t);
      if first.None? then None
      else
        var more := ParseItems(first.value.rest);
        if more.None? then None else Some(Parsed(Arr([first.value.value] + more.value.value), more.value.rest))
  }

  /** An object whose opening brace has been read. */
  function ParseObject(t: string): (r: Option<Parsed<Json>>)
    ensures r.Some? ==> |r.value.rest| < |t|
    decreases |t|, 3
  {
    if t != "" && t[0] == '}' then Some(Parsed(Obj([]), t[1..]))
    else
      var first := ParseProp(t);
      if first.None? then None
      else
        var more := ParseProps(first.value.rest);
        if more.None? then None else Some(Parsed(Obj([first.value.value] + more.value.value), more.value.rest))
  }

  function ParseItems(t: string): (r: Option<Parsed<seq<Json>>>)
    ensures r.Some? ==> |r.value.rest| < |t|
    decreases |t|, 0
  {
    if t == "" then None
    else if t[0] == ']' then Some(Parsed([], t[1..]))
    else if t[0] != ',' then None
    else
      var first := ParseValue(t[1..]);
      if first.None? then None
      else
        var more := ParseItems(first.value.rest);
        if more.None? then None else Some(Parsed([first.value.value] + more.value.value, more.value.rest))
  }

  function ParseProp(t: string): (r: Option<Parsed<Prop>>)
    ensures r.Some? ==> |r.value.rest| < |t|
    decreases |t|, 2
  {
    if t == "" || t[0] != '"' then None
    else
      var key := ParseChars(t[1..]);
      if key.None? || key.value.rest == "" || key.value.rest[0] != ':' then None
      else
        var value := ParseValue(key.value.rest[1..]);
        if value.None? then None else Some(Parsed(Prop(key.value.value, value.value.value), value.value.rest))
  }

  function ParseProps(t: string): (r: Option<Parsed<seq<Prop>>>)
    ensures r.Some? ==> |r.value.rest| < |t|
    decreases |t|, 0
  {
    if t == "" then None
    else if t[0] == '}' then Some(Parsed([], t[1..]))
    else if t[0] != ',' then None
    else
      var first := ParseProp(t[1..]);
      if first.None? then None
      else
        var more := ParseProps(first.value.rest);
        if more.None? then None else Some(Parsed([first.value.value] + more.value.value, more.value.rest))
  }

  function Parse(t: string): Option<Json> {
    var r := ParseValue(t);
    if r.Some? && r.value.rest == "" then Some(r.value.value) else None
  }

  // --- Printing and parsing -----------------------------------------------------------------

  lemma HexRoundTrip(n: nat)
    requires n < 16
    ensures HexValue(HexDigit(n)) == Some(n)
  {
    var digits := "0123456789abcdef";
    assert digits[n] == HexDigit(n);
  }

  lemma HexPair(n: nat)
    requires n < 32
    ensures HexNumber("00" + [HexDigit(n / 16), HexDigit(n % 16)]) == Some(n)
  {
    var s := "00" + [HexDigit(n / 16), HexDigit(n % 16)];
    HexRoundTrip(n / 16);
    HexRoundTrip(n % 16);
    assert "0"[..0] == "" && HexNumber("0") == Some(0);
    assert "00"[..1] == "0" && HexNumber("00") == Some(0);
    assert s[..3][..2] == "00" && HexNumber(s[..3]) == Some(n / 16);
  }

  lemma ParseEscape(c: char, rest: string)
    ensures ParseChar(EscapeChar(c) + rest) == Some(Parsed(c, rest))
  {
    var e := EscapeChar(c);
    var t := e + rest;
    assert t[|e|..] == rest && t[0] == e[0];
    if !Plain(c) {
      assert t[1] == e[1];
      if |e| == 6 {
        assert t[2..6] == "00" + [HexDigit(c as int / 16), HexDigit(c as int % 16)];
        HexPair(c as int);
      }
    }
  }

  /** No shorter text inside a string literal stands for the character. */
  lemma EscapeIsShortest(c: char, t: string)
    requires t != "" && t[0] != '"' && ParseChar(t) == Some(Parsed(c, ""))
    ensures |EscapeChar(c)| <= |t|
  {
    if t[0] != '\\' {
      assert |t[1..]| == 0;
    } else if !(|t| >= 6 && t[1] == 'u') {
      assert |t[2..]| == 0;
    }
  }

  lemma ParseCharsStep(c: char, tail: string)
    requires ParseChars(tail).Some?
    ensures var s := ParseChars(tail).value;
            ParseChars(EscapeChar(c) + tail) == Some(Parsed([c] + s.value, s.rest))
  {
    ParseEscape(c, tail);
    var t := EscapeChar(c) + tail;
    assert t[0] == EscapeChar(c)[0] != '"';
  }

  lemma {:induction false} ParsePrintedChars(s: string, rest: string)
    ensures ParseChars(PrintChars(s, rest)) == Some(Parsed(s, rest))
    decreases s
  {
    if s == "" {
      assert (['"'] + rest)[1..] == rest;
    } else {
      ParsePrintedChars(s[1..], rest);
      ParseCharsStep(s[0], PrintChars(s[1..], rest));
      assert s == [s[0]] + s[1..];
    }
  }

  /** What may follow a printed value. */
  predicate Delimited(u: string) {
    u == "" || u[0] in {',', ']', '}'}
  }

  lemma {:induction false} SpanOfLiteral(s: string, rest: string)
    requires (forall i :: 0 <= i < |s| ==> NumberChar(s[i])) && Delimited(rest)
    ensures NumberSpan(s + rest) == |s|
  {
    if s == "" {
      assert s + rest == rest;
    } else {
      assert (s + rest)[0] == s[0] && (s + rest)[1..] == s[1..] + rest;
      SpanOfLiteral(s[1..], rest);
    }
  }

  lemma ParseLiteral(s: string, rest: string)
    requires NumberLiteral(s) && Delimited(rest)
    ensures ParseValue(s + rest) == Some(Parsed(Num(s), rest))
  {
    var t := s + rest;
    SpanOfLiteral(s, rest);
    assert t[0] == s[0] && t[..|s|] == s && t[|s|..] == rest;
  }

  lemma ParsePrintedWord(word: string, j: Json, rest: string)
    requires word != ""
    ensures ParseWord(word, j, word + rest) == Some(Parsed(j, rest)) && (word + rest)[0] == word[0]
  {
    assert (word + rest)[|word|..] == rest;
  }

  /** Reading back what was printed gives the value and leaves what follows it. */
  lemma {:induction false} ParsePrinted(j: Json, rest: string)
    requires WellFormed(j) && Delimited(rest)
    ensures ParseValue(Print(j, rest)) == Some(Parsed(j, rest))
    ensures Print(j, rest) != "" && Print(j, rest)[0] != ']'
    decreases j, 1
  {
    match j {
      case Null => ParsePrintedWord("null", j, rest);
      case Bool(b) => ParsePrintedWord(if b then "true" else "false", j, rest);
      case Num(s) => ParseLiteral(s, rest);
      case Str(s) => ParsePrintedChars(s, rest);
      case Arr(xs) => ParsePrintedArray(xs, rest);
      case Obj(ps) => ParsePrintedObject(ps, rest);
    }
  }

  lemma ParseBracket(t: string)
    ensures ParseValue(['['] + t) == ParseArray(t) && ParseValue(['{'] + t) == ParseObject(t)
  {
    assert (['['] + t)[1..] == t && (['{'] + t)[1..] == t;
  }

  lemma {:induction false} ParsePrintedArray(xs: seq<Json>, rest: string)
    requires WellFormed(Arr(xs))
    ensures ParseValue(Print(Arr(xs), rest)) == Some(Parsed(Arr(xs), rest))
    decreases xs, 2
  {
    if xs == [] {
      ParseBracket([']'] + rest);
      assert ([']'] + rest)[1..] == rest;
    } else {
      var after := PrintItems(xs[1..], rest);
      ParsePrintedItems(xs[1..], rest);
      ParsePrinted(xs[0], after);
      ParseBracket(Print(xs[0], after));
      assert xs == [xs[0]] + xs[1..];
    }
  }

  lemma {:induction false} ParsePrintedItems(xs: seq<Json>, rest: string)
    requires WellFormed(Arr(xs))
    ensures ParseItems(PrintItems(xs, rest)) == Some(Parsed(xs, rest)) && Delimited(PrintItems(xs, rest))
    decreases xs, 0
  {
    var t := PrintItems(xs, rest);
    if xs != [] {
      var after := PrintItems(xs[1..], rest);
      assert t[1..] == Print(xs[0], after);
      ParsePrintedItems(xs[1..], rest);
      ParsePrinted(xs[0], after);
      assert xs == [xs[0]] + xs[1..];
    }
  }

  lemma {:induction false} ParsePrintedProp(p: Prop, rest: string)
    requires WellFormed(p.value) && Delimited(rest)
    ensures ParseProp(PrintProp(p, rest)) == Some(Parsed(p, rest)) && PrintProp(p, rest)[0] == '"'
    decreases p, 1
  {
    var value := [':'] + Print(p.value, rest);
    ParsePrintedChars(p.key, value);
    assert PrintProp(p, rest)[1..] == PrintChars(p.key, value);
    assert value[1..] == Print(p.value, rest);
    ParsePrinted(p.value, rest);
  }

  lemma {:induction false} ParsePrintedObject(ps: seq<Prop>, rest: string)
    requires WellFormed(Obj(ps))
    ensures ParseValue(Print(Obj(ps), rest)) == Some(Parsed(Obj(ps), rest))
    decreases ps, 2
  {
    if ps == [] {
      ParseBracket(['}'] + rest);
      assert (['}'] + rest)[1..] == rest;
    } else {
      var after := PrintProps(ps[1..], rest);
      ParsePrintedProps(ps[1..], rest);
      ParsePrintedProp(ps[0], after);
      ParseBracket(PrintProp(ps[0], after));
      assert ps == [ps[0]] + ps[1..];
    }
  }

  lemma {:induction false} ParsePrintedProps(ps: seq<Prop>, rest: string)
    requires WellFormed(Obj(ps))
    ensures ParseProps(PrintProps(ps, rest)) == Some(Parsed(ps, rest)) && Delimited(PrintProps(ps, rest))
    decreases ps, 0
  {
    var t := PrintProps(ps, rest);
    if ps != [] {
      var after := PrintProps(ps[1..], rest);
      assert t[1..] == PrintProp(ps[0], after);
      ParsePrintedProps(ps[1..], rest);
      ParsePrintedProp(ps[0], after);
      assert ps == [ps[0]] + ps[1..];
    }
  }

  /** What is printed is JSON text for the value. */
  lemma ParseText(j: Json)
    requires WellFormed(j)
    ensures Parse(Text(j)) == Some(j)
  {
    ParsePrinted(j, "");
  }

  /** So distinct values print differently. */
  lemma TextInjective(a: Json, b: Json)
    requires WellFormed(a) && WellFormed(b) && Text(a) == Text(b)
    ensures a == b
  {
    ParseText(a);
    ParseText(b);
  }

  lemma WordPrefix(w: string, u: string, v: string)
    requires w + u == w + v
    ensures u == v
  {
    assert u == (w + u)[|w|..] == (w + v)[|w|..];
  }

  // --- Printed text has no control characters ------------------------------------------------

  predicate NoControls(s: string) {
    forall i :: 0 <= i < |s| ==> s[i] as int >= 0x20
  }

  lemma EscapeCharNoControls(c: char)
    ensures NoControls(EscapeChar(c))
  {
    if |EscapeChar(c)| == 6 {
      var digits := "0123456789abcdef";
      assert digits[c as int / 16] as int >= 0x20;
      assert digits[c as int % 16] as int >= 0x20;
    }
  }

  lemma {:induction false} CharsNoControls(s: string, rest: string)
    requires NoControls(rest)
    ensures NoControls(PrintChars(s, rest))
    decreases s
  {
    if s != "" {
      EscapeCharNoControls(s[0]);
      CharsNoControls(s[1..], rest);
    }
  }

  lemma {:induction false} PrintNoControls(j: Json, rest: string)
    requires WellFormed(j) && NoControls(rest)
    ensures NoControls(Print(j, rest))
    decreases j, 1
  {
    match j {
      case Null =>
      case Bool(b) =>
      case Num(s) =>
      case Str(s) => CharsNoControls(s, rest);
      case Arr(xs) =>
        if xs != [] {
          ItemsNoControls(xs[1..], rest);
          PrintNoControls(xs[0], PrintItems(xs[1..], rest));
        }
      case Obj(ps) =>
        if ps != [] {
          PropsNoControls(ps[1..], rest);
          PropNoControls(ps[0], PrintProps(ps[1..], rest));
        }
    }
  }

  lemma {:induction false} ItemsNoControls(xs: seq<Json>, rest: string)
    requires WellFormed(Arr(xs)) && NoControls(rest)
    ensures NoControls(PrintItems(xs, rest))
    decreases xs, 0
  {
    if xs != [] {
      ItemsNoControls(xs[1..], rest);
      PrintNoControls(xs[0], PrintItems(xs[1..], rest));
    }
  }

  lemma {:induction false} PropNoControls(p: Prop, rest: string)
    requires WellFormed(p.value) && NoControls(rest)
    ensures NoControls(PrintProp(p, rest))
    decreases p, 1
  {
    PrintNoControls(p.value, rest);
    CharsNoControls(p.key, [':'] + Print(p.value, rest));
  }

  lemma {:induction false} PropsNoControls(ps: seq<Prop>, rest: string)
    requires WellFormed(Obj(ps)) && NoControls(rest)
    ensures NoControls(PrintProps(ps, rest))
    decreases ps, 0
  {
    if ps != [] {
      PropsNoControls(ps[1..], rest);
      PropNoControls(ps[0], PrintProps(ps[1..], rest));
    }
  }
}
