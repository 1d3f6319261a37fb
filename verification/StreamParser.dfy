/** The incremental readers of provider streams: lines, and the data of server-sent events.

    Input is the text that the decoder produced for each network chunk, and how the stream ended.
    Lengths are JavaScript string lengths, that is UTF-16 code units. */
module StreamParser {
  import Utf16

  const MAX_FRAME_SIZE := 65536

  /** How reading ends: end of body, a failed read, or bytes that are not UTF-8. */
  datatype End = Eof | ConnectionLost | Undecodable

  /** How a reader ends: it is exhausted, or it throws. */
  datatype Verdict = Exhausted | ResponseError | ConnectionError

  datatype Reading = Reading(items: seq<string>, verdict: Verdict)

  function Prepend(items: seq<string>, r: Reading): Reading {
    r.(items := items + r.items)
  }

  // --- Text ---------------------------------------------------------------------------------

  /** String.length of a well-formed text. */
  function Units(s: string): nat {
    if s == "" then 0 else (if s[0] as int >= 0x10000 then 2 else 1) + Units(s[1..])
  }

  lemma {:induction false} UnitsAreCodeUnits(s: string)
    ensures Units(s) == |Utf16.Encode(s)|
  {
    if s != "" {
      UnitsAreCodeUnits(s[1..]);
    }
  }

  lemma {:induction false} UnitsConcat(a: string, b: string)
    ensures Units(a + b) == Units(a) + Units(b)
  {
    if a == "" {
      assert a + b == b;
    } else {
      assert (a + b)[1..] == a[1..] + b;
      UnitsConcat(a[1..], b);
    }
  }

  function Concat(chunks: seq<string>): string {
    if chunks == [] then "" else chunks[0] + Concat(chunks[1..])
  }

  /** The line without its carriage return. */
  function Strip(line: string): string {
    if line != "" && line[|line| - 1] == '\r' then line[..|line| - 1] else line
  }

  predicate OneLine(s: string) {
    '\n' !in s
  }

  // --- The reference: split the whole text, then look at the lines ---------------------------

  function FirstBreak(t: string): (i: nat)
    ensures i <= |t| && OneLine(t[..i]) && (i < |t| ==> t[i] == '\n')
  {
    if t == "" || t[0] == '\n' then 0
    else
      var i := 1 + FirstBreak(t[1..]);
      assert t[..i] == [t[0]] + t[1..][..i - 1];
      i
  }

  /** The raw lines of a text: the pieces between line feeds. */
  function Split(t: string): (r: seq<string>)
    ensures r != []
    decreases |t|
  {
    var i := FirstBreak(t);
    if i == |t| then [t] else [t[..i]] + Split(t[i + 1..])
  }

  /** What the line reader does with the raw lines of the whole text: it stops at the first line
      that is too long; the piece after the last line feed counts only when the body ends. */
  function Accept(raw: seq<string>, end: End): Reading
    requires raw != []
  {
    if Units(raw[0]) > MAX_FRAME_SIZE then Reading([], ResponseError)
    else if |raw| > 1 then Prepend([Strip(raw[0])], Accept(raw[1..], end))
    else if end == Eof && raw[0] != "" then Reading([Strip(raw[0])], Exhausted)
    else Reading([], VerdictAt(end))
  }

  function VerdictAt(end: End): Verdict {
    match end
    case Eof => Exhausted
    case ConnectionLost => ConnectionError
    case Undecodable => ResponseError
  }

  function LinesOf(text: string, end: End): Reading {
    Accept(Split(text), end)
  }

  // --- Splitting ------------------------------------------------------------------------------

  lemma {:induction false} FirstBreakBeyond(a: string, b: string)
    requires OneLine(a)
    ensures FirstBreak(a + b) == |a| + FirstBreak(b)
  {
    if a == "" {
      assert a + b == b;
    } else {
      assert (a + b)[0] == a[0] && (a + b)[1..] == a[1..] + b;
      FirstBreakBeyond(a[1..], b);
    }
  }

  lemma SplitOneLine(a: string)
    requires OneLine(a)
    ensures Split(a) == [a]
  {
    FirstBreakBeyond(a, "");
    assert a + "" == a;
  }

  lemma SplitAtBreak(a: string, b: string)
    requires OneLine(a)
    ensures Split(a + "\n" + b) == [a] + Split(b)
  {
    var t := a + "\n" + b;
    assert t == a + ("\n" + b);
    FirstBreakBeyond(a, "\n" + b);
    assert t[..|a|] == a && t[|a| + 1..] == b;
  }

  /** The raw lines are the text again once the line feeds are put back, and hold none. */
  lemma {:induction false} SplitIsExact(t: string)
    ensures JoinLines(Split(t)) == t
    ensures forall i :: 0 <= i < |Split(t)| ==> OneLine(Split(t)[i])
    decreases |t|
  {
    var i := FirstBreak(t);
    if i < |t| {
      SplitIsExact(t[i + 1..]);
      assert t == t[..i] + "\n" + t[i + 1..];
    } else {
      assert t[..i] == t;
    }
  }

  function JoinLines(lines: seq<string>): string {
    if lines == [] then ""
    else if |lines| == 1 then lines[0]
    else lines[0] + "\n" + JoinLines(lines[1..])
  }

  // --- What the reference says about long lines --------------------------------------------------

  predicate Fits(raw: seq<string>) {
    forall i :: 0 <= i < |raw| ==> Units(raw[i]) <= MAX_FRAME_SIZE
  }

  function StripAll(raw: seq<string>): (r: seq<string>)
    ensures |r| == |raw| && forall i :: 0 <= i < |raw| ==> r[i] == Strip(raw[i])
  {
    if raw == [] then [] else [Strip(raw[0])] + StripAll(raw[1..])
  }

  lemma {:induction false} StopsAtLongLine(raw: seq<string>, k: nat, end: End)
    requires k < |raw| && Fits(raw[..k]) && Units(raw[k]) > MAX_FRAME_SIZE
    ensures Accept(raw, end) == Reading(StripAll(raw[..k]), ResponseError)
    decreases k
  {
    if k > 0 {
      var tail := raw[1..];
      assert raw[..k] == [raw[0]] + tail[..k - 1];
      var front := tail[..k - 1];
      forall i | 0 <= i < |front| ensures Units(front[i]) <= MAX_FRAME_SIZE {
        assert front[i] == raw[..k][i + 1];
      }
      assert raw[..k][0] == raw[0];
      StopsAtLongLine(tail, k - 1, end);
    }
  }

  /** What is left when no line is too long: at the end of the body the piece after the last line
      feed, if there is any, and otherwise the error. */
  function Rest(last: string, end: End): Reading {
    match end
    case Eof => Reading(if last == "" then [] else [Strip(last)], Exhausted)
    case ConnectionLost => Reading([], ConnectionError)
    case Undecodable => Reading([], ResponseError)
  }

  lemma {:induction false} ReadsAllThatFit(raw: seq<string>, end: End)
    requires raw != [] && Fits(raw)
    ensures Accept(raw, end) == Prepend(StripAll(raw[..|raw| - 1]), Rest(raw[|raw| - 1], end))
  {
    if |raw| > 1 {
      var tail, front := raw[1..], raw[..|raw| - 1];
      ReadsAllThatFit(tail, end);
      assert front[0] == raw[0] && front[1..] == tail[..|tail| - 1];
      ConsAssoc(Strip(raw[0]), StripAll(front[1..]), Rest(raw[|raw| - 1], end).items);
    } else {
      assert raw[..0] == [];
    }
  }

  lemma ConsAssoc(x: string, a: seq<string>, b: seq<string>)
    ensures [x] + (a + b) == [x] + a + b
  {
  }

  lemma {:induction false} SomeLongLine(raw: seq<string>) returns (k: nat)
    requires !Fits(raw)
    ensures k < |raw| && Fits(raw[..k]) && Units(raw[k]) > MAX_FRAME_SIZE
  {
    if Units(raw[0]) > MAX_FRAME_SIZE {
      k := 0;
    } else {
      assert !Fits(raw[1..]) by {
        var i :| 0 <= i < |raw| && Units(raw[i]) > MAX_FRAME_SIZE;
        assert raw[1..][i - 1] == raw[i];
      }
      var j := SomeLongLine(raw[1..]);
      k := j + 1;
      assert raw[..k] == [raw[0]] + raw[1..][..j];
    }
  }

  /** Reading fails early exactly when some raw line is longer than the bound, after yielding every
      line before the first such line. Otherwise it yields every line and ends as the body does. */
  lemma LongLinesFail(text: string, end: End)
    ensures Fits(Split(text)) ==>
              var raw := Split(text);
              LinesOf(text, end) == Prepend(StripAll(raw[..|raw| - 1]), Rest(raw[|raw| - 1], end))
    ensures !Fits(Split(text)) ==>
              exists k :: 0 <= k < |Split(text)| && Fits(Split(text)[..k]) && Units(Split(text)[k]) > MAX_FRAME_SIZE
                && LinesOf(text, end) == Reading(StripAll(Split(text)[..k]), ResponseError)
  {
    var raw := Split(text);
    if Fits(raw) {
      ReadsAllThatFit(raw, end);
    } else {
      var k := SomeLongLine(raw);
      StopsAtLongLine(raw, k, end);
    }
  }

  // --- One line at a time --------------------------------------------------------------------------

  lemma LinesStep(a: string, b: string, end: End)
    requires OneLine(a)
    ensures LinesOf(a + "\n" + b, end) ==
            if Units(a) > MAX_FRAME_SIZE then Reading([], ResponseError) else Prepend([Strip(a)], LinesOf(b, end))
  {
    SplitAtBreak(a, b);
    assert ([a] + Split(b))[1..] == Split(b);
  }

  /** A line that is already too long cannot be rescued by what follows. */
  lemma LongPrefixFails(a: string, b: string, end: End)
    requires OneLine(a) && Units(a) > MAX_FRAME_SIZE
    ensures LinesOf(a + b, end) == Reading([], ResponseError)
  {
    var i := FirstBreak(a + b);
    FirstBreakBeyond(a, b);
    assert (a + b)[..i] == a + b[..i - |a|];
    UnitsConcat(a, b[..i - |a|]);
    assert Split(a + b)[0] == (a + b)[..i];
  }

  lemma LinesEnd(a: string, end: End)
    requires OneLine(a)
    ensures LinesOf(a, end) == Accept([a], end)
  {
    SplitOneLine(a);
  }

  // --- Line ends -----------------------------------------------------------------------------------

  /** Lines, each ended by a line feed or by carriage return and line feed. */
  function Terminated(lines: seq<string>, crlf: seq<bool>): string
    requires |lines| == |crlf|
  {
    if lines == [] then "" else lines[0] + LineEnd(crlf[0]) + Terminated(lines[1..], crlf[1..])
  }

  /** A line as its writer means it: without line feed, and not ending in a carriage return. */
  predicate Clean(line: string) {
    OneLine(line) && (line == "" || line[|line| - 1] != '\r')
  }

  function LineEnd(crlf: bool): string {
    if crlf then "\r\n" else "\n"
  }

  lemma CarriageReturn(line: string)
    requires OneLine(line)
    ensures OneLine(line + "\r") && Strip(line + "\r") == line && Units(line + "\r") == Units(line) + 1
  {
    UnitsConcat(line, "\r");
    assert Units("\r") == 1 + Units("\r"[1..]);
    assert (line + "\r")[..|line|] == line;
  }

  lemma CrlfText(line: string, rest: string)
    ensures line + "\r\n" + rest == (line + "\r") + "\n" + rest
  {
  }

  lemma LineEndRemoved(line: string, crlf: bool, rest: string, end: End)
    requires Clean(line) && Units(line) < MAX_FRAME_SIZE
    ensures LinesOf(line + LineEnd(crlf) + rest, end) == Prepend([line], LinesOf(rest, end))
  {
    if crlf {
      CarriageReturn(line);
      CrlfText(line, rest);
      LinesStep(line + "\r", rest, end);
    } else {
      LinesStep(line, rest, end);
    }
  }

  lemma TerminatedCons(lines: seq<string>, crlf: seq<bool>, last: string)
    requires |lines| == |crlf| > 0
    ensures Terminated(lines, crlf) + last
            == lines[0] + LineEnd(crlf[0]) + (Terminated(lines[1..], crlf[1..]) + last)
  {
  }

  lemma ReadingCons(lines: seq<string>, more: seq<string>, verdict: Verdict)
    requires lines != []
    ensures Prepend([lines[0]], Reading(lines[1..] + more, verdict)) == Reading(lines + more, verdict)
  {
    assert [lines[0]] + (lines[1..] + more) == lines + more;
  }

  /** The piece after the last line feed is a line if there is anything. */
  function LastLine(last: string): seq<string> {
    if last == "" then [] else [last]
  }

  lemma LastLineRead(last: string)
    requires Clean(last) && Units(last) <= MAX_FRAME_SIZE
    ensures LinesOf(last, Eof) == Reading([] + LastLine(last), Exhausted)
  {
    LinesEnd(last, Eof);
  }

  predicate AllFit(lines: seq<string>) {
    forall i :: 0 <= i < |lines| ==> Clean(lines[i]) && Units(lines[i]) < MAX_FRAME_SIZE
  }

  /** Both kinds of line end are removed, and nothing else: lines that fit come back as they were
      written, the one after the last line feed too when it is not empty. */
  lemma {:induction false} WrittenLinesRead(lines: seq<string>, crlf: seq<bool>, last: string)
    requires |lines| == |crlf| && AllFit(lines) && Clean(last) && Units(last) <= MAX_FRAME_SIZE
    ensures LinesOf(Terminated(lines, crlf) + last, Eof) == Reading(lines + LastLine(last), Exhausted)
  {
    if lines == [] {
      assert Terminated(lines, crlf) + last == last;
      LastLineRead(last);
    } else {
      var tail := Terminated(lines[1..], crlf[1..]) + last;
      TerminatedCons(lines, crlf, last);
      LineEndRemoved(lines[0], crlf[0], tail, Eof);
      WrittenLinesRead(lines[1..], crlf[1..], last);
      ReadingCons(lines, LastLine(last), Exhausted);
    }
  }

  /** Lines joined by line feeds split into themselves. */
  lemma {:induction false} SplitJoined(lines: seq<string>)
    requires lines != [] && forall i :: 0 <= i < |lines| ==> OneLine(lines[i])
    ensures Split(JoinLines(lines)) == lines
  {
    if |lines| == 1 {
      SplitOneLine(lines[0]);
    } else {
      SplitAtBreak(lines[0], JoinLines(lines[1..]));
      SplitJoined(lines[1..]);
    }
  }

  // --- readLines --------------------------------------------------------------------------------------

  /** The reader's position: `lines` have been yielded and `text` is still to be read. */
  ghost predicate Left(goal: Reading, lines: seq<string>, text: string, end: End) {
    goal == Prepend(lines, LinesOf(text, end))
  }

  lemma PrependTwice(items: seq<string>, x: string, r: Reading)
    ensures Prepend(items, Prepend([x], r)) == Prepend(items + [x], r)
    ensures Prepend(items, Reading([], r.verdict)) == Reading(items, r.verdict)
  {
    assert items + ([x] + r.items) == items + [x] + r.items;
  }

  lemma StopTooLong(goal: Reading, lines: seq<string>, pending: string, rest: string, end: End)
    requires OneLine(pending) && Units(pending) > MAX_FRAME_SIZE && Left(goal, lines, pending + rest, end)
    ensures goal == Reading(lines, ResponseError)
  {
    LongPrefixFails(pending, rest, end);
    PrependTwice(lines, "", Reading([], ResponseError));
  }

  lemma StopAtEnd(goal: Reading, lines: seq<string>, pending: string, end: End)
    requires OneLine(pending) && Units(pending) <= MAX_FRAME_SIZE && Left(goal, lines, pending, end)
    ensures goal == match end
                    case Eof => Reading(if pending == "" then lines else lines + [Strip(pending)], Exhausted)
                    case ConnectionLost => Reading(lines, ConnectionError)
                    case Undecodable => Reading(lines, ResponseError)
  {
    LinesEnd(pending, end);
    PrependTwice(lines, "", LinesOf(pending, end));
  }

  lemma StartReading(text: string, end: End)
    ensures Left(LinesOf(text, end), [], text, end)
  {
    assert [] + LinesOf(text, end).items == LinesOf(text, end).items;
  }

  lemma YieldLine(goal: Reading, lines: seq<string>, line: string, after: string, end: End)
    requires OneLine(line) && Left(goal, lines, line + "\n" + after, end)
    ensures if Units(line) > MAX_FRAME_SIZE then goal == Reading(lines, ResponseError)
            else Left(goal, lines + [Strip(line)], after, end)
  {
    LinesStep(line, after, end);
    PrependTwice(lines, Strip(line), LinesOf(after, end));
  }

  lemma EmptyPending(decoded: string, rest: string)
    ensures "" + decoded + rest == decoded + rest
  {
  }

  lemma ConcatFrom(pending: string, chunks: seq<string>, n: nat)
    requires n < |chunks|
    ensures pending + Concat(chunks[n..]) == pending + chunks[n] + Concat(chunks[n + 1..])
  {
    assert chunks[n..][1..] == chunks[n + 1..];
  }

  lemma CutAtBreak(pending: string, decoded: string, start: nat, index: nat, rest: string)
    requires start <= index < |decoded| && decoded[index] == '\n'
    ensures pending + decoded[start..] + rest
            == (pending + decoded[start..index]) + "\n" + (decoded[index + 1..] + rest)
  {
    assert decoded[start..] == decoded[start..index] + "\n" + decoded[index + 1..];
  }

  /** The inner loop: look for line feeds in one decoded chunk. */
  method ReadChunk(decoded: string, carried: string, yielded: seq<string>, ghost goal: Reading,
                   ghost rest: string, ghost end: End)
    returns (lines: seq<string>, pending: string, tooLong: bool)
    requires OneLine(carried) && Left(goal, yielded, carried + decoded + rest, end)
    ensures tooLong ==> goal == Reading(lines, ResponseError)
    ensures !tooLong ==> OneLine(pending) && Left(goal, lines, pending + rest, end)
  {
    lines, pending, tooLong := yielded, carried, false;
    var start, index := 0, 0;
    assert decoded[0..] == decoded;
    while index < |decoded|
      invariant 0 <= start <= index <= |decoded|
      invariant OneLine(pending) && OneLine(decoded[start..index])
      invariant Left(goal, lines, pending + decoded[start..] + rest, end)
    {
      if decoded[index] == '\n' {
        CutAtBreak(pending, decoded, start, index, rest);
        pending := pending + decoded[start..index];
        YieldLine(goal, lines, pending, decoded[index + 1..] + rest, end);
        if Units(pending) > MAX_FRAME_SIZE {
          return lines, pending, true;
        }
        lines := lines + [Strip(pending)];
        pending := "";
        start := index + 1;
        EmptyPending(decoded[start..], rest);
      } else {
        assert decoded[start..index + 1] == decoded[start..index] + [decoded[index]];
      }
      index := index + 1;
    }
    assert decoded[start..] == decoded[start..index];
    pending := pending + decoded[start..];
  }

  /** For every way of cutting the text into chunks the reader yields what the reference reads
      from the whole text. */
  method ReadLines(chunks: seq<string>, end: End) returns (lines: seq<string>, verdict: Verdict)
    ensures Reading(lines, verdict) == LinesOf(Concat(chunks), end)
  {
    lines := [];
    var pending := "";
    var n := 0;
    ghost var goal := LinesOf(Concat(chunks), end);
    StartReading(Concat(chunks), end);
    assert pending + Concat(chunks[n..]) == Concat(chunks) by {
      assert chunks[n..] == chunks;
    }
    while n < |chunks|
      invariant 0 <= n <= |chunks|
      invariant OneLine(pending) && Units(pending) <= MAX_FRAME_SIZE
      invariant Left(goal, lines, pending + Concat(chunks[n..]), end)
    {
      ghost var rest := Concat(chunks[n + 1..]);
      ConcatFrom(pending, chunks, n);
      var tooLong;
      lines, pending, tooLong := ReadChunk(chunks[n], pending, lines, goal, rest, end);
      if tooLong {
        return lines, ResponseError;
      }
      if Units(pending) > MAX_FRAME_SIZE {
        StopTooLong(goal, lines, pending, rest, end);
        return lines, ResponseError;
      }
      n := n + 1;
    }
    assert pending + Concat(chunks[n..]) == pending;
    StopAtEnd(goal, lines, pending, end);
    match end {
      case ConnectionLost => verdict := ConnectionError;
      case Undecodable => verdict := ResponseError;
      case Eof =>
        if pending != "" {
          lines := lines + [Strip(pending)];
        }
        verdict := Exhausted;
    }
  }
}
