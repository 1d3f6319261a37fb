/** readSseData, the data of server-sent events, and writeSse, the frames the gateway sends
    (WHATWG HTML Standard sections 9.2.5 and 9.2.6). */
module SseData {
  import opened Wrappers
  import opened StreamParser
  import Json

  // --- The reference: events are the blocks between blank lines ----------------------------------

  predicate IsData(line: string) {
    |line| >= 5 && line[..5] == "data:"
  }

  /** What follows the field name, without the one space that may stand before it. */
  function Value(line: string): string
    requires IsData(line)
  {
    if |line| > 5 && line[5] == ' ' then line[6..] else line[5..]
  }

  function Values(block: seq<string>): seq<string> {
    if block == [] then []
    else (if IsData(block[0]) then [Value(block[0])] else []) + Values(block[1..])
  }

  /** Each value counts with the line feed that joins it to the next one. */
  function Size(values: seq<string>): nat {
    if values == [] then 0 else Units(values[0]) + 1 + Size(values[1..])
  }

  function FirstBlank(lines: seq<string>): (i: nat)
    ensures i <= |lines| && "" !in lines[..i] && (i < |lines| ==> lines[i] == "")
  {
    if lines == [] || lines[0] == "" then 0
    else
      var i := 1 + FirstBlank(lines[1..]);
      assert lines[..i] == [lines[0]] + lines[1..][..i - 1];
      i
  }

  /** What a closed block yields: its values joined by line feeds, nothing if it has none. */
  function Emit(values: seq<string>): seq<string> {
    if values == [] then [] else [JoinLines(values)]
  }

  /** The events in `lines`, when the open block already has the values `data`. A block is
      refused as a whole when it is too large; an unterminated block yields nothing. */
  function EventsFrom(data: seq<string>, lines: seq<string>, verdict: Verdict): Reading
    decreases |lines|
  {
    var i := FirstBlank(lines);
    var values := data + Values(lines[..i]);
    if Size(values) > MAX_FRAME_SIZE then Reading([], ResponseError)
    else if i == |lines| then Reading([], verdict)
    else Prepend(Emit(values), EventsFrom([], lines[i + 1..], verdict))
  }

  function EventsOf(lines: Reading): Reading {
    EventsFrom([], lines.items, lines.verdict)
  }

  // --- One line at a time ---------------------------------------------------------------------------

  lemma {:induction false} SizeConcat(a: seq<string>, b: seq<string>)
    ensures Size(a + b) == Size(a) + Size(b)
  {
    if a == [] {
      assert a + b == b;
    } else {
      assert (a + b)[1..] == a[1..] + b;
      SizeConcat(a[1..], b);
    }
  }

  lemma ValuesCons(line: string, block: seq<string>)
    ensures Values([line] + block) == (if IsData(line) then [Value(line)] else []) + Values(block)
  {
    assert ([line] + block)[1..] == block;
  }

  lemma TakeCons<T>(x: T, s: seq<T>, k: nat)
    requires k <= |s|
    ensures ([x] + s)[..1 + k] == [x] + s[..k]
  {
  }

  lemma DropCons<T>(x: T, s: seq<T>, k: nat)
    requires k <= |s|
    ensures ([x] + s)[1 + k..] == s[k..]
  {
  }

  lemma FirstBlankCons(line: string, lines: seq<string>)
    requires line != ""
    ensures FirstBlank([line] + lines) == 1 + FirstBlank(lines)
  {
    DropCons(line, lines, 0);
    assert ([line] + lines)[0] == line;
  }

  /** A line in front of an open block: only the block's values change. */
  lemma EventsCons(data: seq<string>, line: string, lines: seq<string>, verdict: Verdict, more: seq<string>)
    requires line != ""
    requires forall block :: data + Values([line] + block) == more + Values(block)
    ensures EventsFrom(data, [line] + lines, verdict) == EventsFrom(more, lines, verdict)
  {
    var k := FirstBlank(lines);
    FirstBlankCons(line, lines);
    TakeCons(line, lines, k);
    if k < |lines| {
      DropCons(line, lines, k + 1);
    }
  }

  lemma EventsBlank(data: seq<string>, lines: seq<string>, verdict: Verdict)
    requires Size(data) <= MAX_FRAME_SIZE
    ensures EventsFrom(data, [""] + lines, verdict) == Prepend(Emit(data), EventsFrom([], lines, verdict))
  {
    var all := [""] + lines;
    assert all[..0] == [] && data + [] == data && all[1..] == lines;
  }

  lemma EventsIgnored(data: seq<string>, line: string, lines: seq<string>, verdict: Verdict)
    requires line != "" && !IsData(line)
    ensures EventsFrom(data, [line] + lines, verdict) == EventsFrom(data, lines, verdict)
  {
    forall block ensures data + Values([line] + block) == data + Values(block) {
      ValuesCons(line, block);
      assert [] + Values(block) == Values(block);
    }
    EventsCons(data, line, lines, verdict, data);
  }

  lemma EventsValue(data: seq<string>, line: string, lines: seq<string>, verdict: Verdict)
    requires IsData(line)
    ensures EventsFrom(data, [line] + lines, verdict) == EventsFrom(data + [Value(line)], lines, verdict)
  {
    forall block ensures data + Values([line] + block) == data + [Value(line)] + Values(block) {
      ValuesCons(line, block);
      assert data + ([Value(line)] + Values(block)) == data + [Value(line)] + Values(block);
    }
    EventsCons(data, line, lines, verdict, data + [Value(line)]);
  }

  lemma EventsTooLarge(data: seq<string>, lines: seq<string>, verdict: Verdict)
    requires Size(data) > MAX_FRAME_SIZE
    ensures EventsFrom(data, lines, verdict) == Reading([], ResponseError)
  {
    SizeConcat(data, Values(lines[..FirstBlank(lines)]));
  }

  lemma EventsEnd(data: seq<string>, verdict: Verdict)
    requires Size(data) <= MAX_FRAME_SIZE
    ensures EventsFrom(data, [], verdict) == Reading([], verdict)
  {
    assert data + [] == data;
  }

  // --- readSseData ------------------------------------------------------------------------------------

  /** The loop's remaining work: `events` are yielded, the open block has the values `data`. */
  function Scan(events: seq<string>, data: seq<string>, lines: seq<string>, verdict: Verdict): Reading
    decreases lines
  {
    if lines == [] then Reading(events, verdict)
    else if lines[0] == "" then Scan(events + Emit(data), [], lines[1..], verdict)
    else if !IsData(lines[0]) then Scan(events, data, lines[1..], verdict)
    else if Size(data + [Value(lines[0])]) > MAX_FRAME_SIZE then Reading(events, ResponseError)
    else Scan(events, data + [Value(lines[0])], lines[1..], verdict)
  }

  lemma PrependAssoc(a: seq<string>, b: seq<string>, r: Reading)
    ensures Prepend(a + b, r) == Prepend(a, Prepend(b, r))
    ensures Prepend(a, Reading([], r.verdict)) == Reading(a, r.verdict)
  {
    assert a + b + r.items == a + (b + r.items);
  }

  /** Scanning line by line is reading block by block. */
  lemma {:induction false} ScanIsBlockwise(events: seq<string>, data: seq<string>, lines: seq<string>, verdict: Verdict)
    requires Size(data) <= MAX_FRAME_SIZE
    ensures Scan(events, data, lines, verdict) == Prepend(events, EventsFrom(data, lines, verdict))
    decreases lines
  {
    if lines == [] {
      EventsEnd(data, verdict);
      PrependAssoc(events, [], Reading([], verdict));
    } else {
      var line, rest := lines[0], lines[1..];
      assert lines == [line] + rest;
      if line == "" {
        EventsBlank(data, rest, verdict);
        ScanIsBlockwise(events + Emit(data), [], rest, verdict);
        PrependAssoc(events, Emit(data), EventsFrom([], rest, verdict));
      } else if !IsData(line) {
        EventsIgnored(data, line, rest, verdict);
        ScanIsBlockwise(events, data, rest, verdict);
      } else {
        EventsValue(data, line, rest, verdict);
        if Size(data + [Value(line)]) > MAX_FRAME_SIZE {
          EventsTooLarge(data + [Value(line)], rest, verdict);
          PrependAssoc(events, [], Reading([], ResponseError));
        } else {
          ScanIsBlockwise(events, data + [Value(line)], rest, verdict);
        }
      }
    }
  }

  /** The loop over lines yields exactly the events of the block-wise reference. */
  method ReadSseData(lines: seq<string>, verdict: Verdict) returns (events: seq<string>, v: Verdict)
    ensures Reading(events, v) == EventsOf(Reading(lines, verdict))
  {
    ScanIsBlockwise([], [], lines, verdict);
    PrependAssoc([], [], EventsFrom([], lines, verdict));
    events, v := ScanLines(lines, verdict);
  }

  method ScanLines(lines: seq<string>, verdict: Verdict) returns (events: seq<string>, v: Verdict)
    ensures Reading(events, v) == Scan([], [], lines, verdict)
  {
    events := [];
    var data: seq<string> := [];
    var size := 0;
    var n := 0;
    while n < |lines|
      invariant 0 <= n <= |lines|
      invariant size == Size(data)
      invariant Scan([], [], lines, verdict) == Scan(events, data, lines[n..], verdict)
    {
      var line := lines[n];
      assert lines[n..][1..] == lines[n + 1..];
      n := n + 1;
      if line == "" {
        if data != [] {
          events := events + [JoinLines(data)];
        } else {
          assert events + [] == events;
        }
        data := [];
        size := 0;
      } else if IsData(line) {
        SizeConcat(data, [Value(line)]);
        size := size + Units(Value(line)) + 1;
        data := data + [Value(line)];
        if size > MAX_FRAME_SIZE {
          return events, ResponseError;
        }
      }
    }
    return events, verdict;
  }

  /** The events of a whole text. */
  function EventsOfText(text: string, end: End): Reading {
    EventsOf(LinesOf(text, end))
  }

  /** Chunking does not matter to event readers either. */
  method ReadEvents(chunks: seq<string>, end: End) returns (events: seq<string>, v: Verdict)
    ensures Reading(events, v) == EventsOfText(Concat(chunks), end)
  {
    var lines, verdict := ReadLines(chunks, end);
    events, v := ReadSseData(lines, verdict);
  }

  // --- Events of several data lines ------------------------------------------------------------------------

  /** One value of an event, written with or without a space after the colon. */
  datatype Datum = Datum(value: string, spaced: bool)

  function DatumLine(d: Datum): string {
    (if d.spaced then "data: " else "data:") + d.value
  }

  /** A value that can be written like this: on one line, within the bound, and with the space
      when the value itself starts with one. */
  predicate Writable(d: Datum) {
    Clean(d.value) && Units(d.value) + 6 < MAX_FRAME_SIZE && (d.value != "" && d.value[0] == ' ' ==> d.spaced)
  }

  function DatumValues(ds: seq<Datum>): (r: seq<string>)
    ensures |r| == |ds| && forall i :: 0 <= i < |ds| ==> r[i] == ds[i].value
  {
    if ds == [] then [] else [ds[0].value] + DatumValues(ds[1..])
  }

  function BlockLines(ds: seq<Datum>): seq<string> {
    if ds == [] then [""] else [DatumLine(ds[0])] + BlockLines(ds[1..])
  }

  function BlocksLines(blocks: seq<seq<Datum>>): seq<string> {
    if blocks == [] then [] else BlockLines(blocks[0]) + BlocksLines(blocks[1..])
  }

  /** The data of each block: its values joined by line feeds. */
  function BlocksData(blocks: seq<seq<Datum>>): seq<string> {
    if blocks == [] then [] else [JoinLines(DatumValues(blocks[0]))] + BlocksData(blocks[1..])
  }

  predicate WritableBlock(ds: seq<Datum>) {
    ds != [] && forall i :: 0 <= i < |ds| ==> Writable(ds[i])
  }

  /** The data of the event, with one more unit, is within the bound. */
  predicate FitsFrame(ds: seq<Datum>) {
    Units(JoinLines(DatumValues(ds))) < MAX_FRAME_SIZE
  }

  /** What the reader counts is the length of the data that it would yield, plus one. */
  lemma {:induction false} SizeIsLength(values: seq<string>)
    requires values != []
    ensures Size(values) == Units(JoinLines(values)) + 1
  {
    if |values| == 1 {
      assert values[1..] == [];
    } else {
      SizeIsLength(values[1..]);
      UnitsConcat(values[0] + "\n", JoinLines(values[1..]));
      UnitsConcat(values[0], "\n");
      assert Units("\n") == 1 + Units("\n"[1..]);
    }
  }

  lemma DatumUnits(d: Datum)
    ensures Units(DatumLine(d)) == (if d.spaced then 6 else 5) + Units(d.value)
  {
    UnitsConcat(if d.spaced then "data: " else "data:", d.value);
    assert Units("data: ") == 6 && Units("data:") == 5;
  }

  lemma DatumReads(d: Datum)
    requires Writable(d)
    ensures var line := DatumLine(d);
            IsData(line) && Value(line) == d.value && Clean(line) && Units(line) < MAX_FRAME_SIZE
  {
    DatumUnits(d);
    var line := DatumLine(d);
    assert line[..5] == "data:";
    assert line[if d.spaced then 6 else 5..] == d.value;
    assert d.spaced ==> line[5] == ' ';
    assert d.value != "" ==> line[|line| - 1] == d.value[|d.value| - 1];
  }

  lemma BlockCons(data: seq<string>, ds: seq<Datum>, rest: seq<string>)
    requires ds != []
    ensures BlockLines(ds) + rest == [DatumLine(ds[0])] + (BlockLines(ds[1..]) + rest)
    ensures data + DatumValues(ds) == data + [ds[0].value] + DatumValues(ds[1..])
  {
  }

  lemma {:induction false} BlockReads(data: seq<string>, ds: seq<Datum>, rest: seq<string>, verdict: Verdict)
    requires (forall i :: 0 <= i < |ds| ==> Writable(ds[i])) && Size(data) <= MAX_FRAME_SIZE
    ensures EventsFrom(data, BlockLines(ds) + rest, verdict) ==
            if Size(data + DatumValues(ds)) > MAX_FRAME_SIZE then Reading([], ResponseError)
            else Prepend(Emit(data + DatumValues(ds)), EventsFrom([], rest, verdict))
    decreases ds
  {
    if ds == [] {
      assert data + [] == data;
      EventsBlank(data, rest, verdict);
    } else {
      var more := data + [ds[0].value];
      DatumReads(ds[0]);
      BlockCons(data, ds, rest);
      EventsValue(data, DatumLine(ds[0]), BlockLines(ds[1..]) + rest, verdict);
      if Size(more) > MAX_FRAME_SIZE {
        EventsTooLarge(more, BlockLines(ds[1..]) + rest, verdict);
        SizeConcat(more, DatumValues(ds[1..]));
      } else {
        BlockReads(more, ds[1..], rest, verdict);
      }
    }
  }

  lemma FirstBlockReads(block: seq<Datum>, rest: seq<string>, verdict: Verdict)
    requires WritableBlock(block)
    ensures EventsFrom([], BlockLines(block) + rest, verdict) ==
            if FitsFrame(block) then Prepend([JoinLines(DatumValues(block))], EventsFrom([], rest, verdict))
            else Reading([], ResponseError)
  {
    assert [] + DatumValues(block) == DatumValues(block);
    BlockReads([], block, rest, verdict);
    SizeIsLength(DatumValues(block));
  }

  predicate AllFitFrame(blocks: seq<seq<Datum>>) {
    forall i :: 0 <= i < |blocks| ==> FitsFrame(blocks[i])
  }

  lemma AllFitCons(blocks: seq<seq<Datum>>)
    requires blocks != []
    ensures AllFitFrame(blocks) <==> FitsFrame(blocks[0]) && AllFitFrame(blocks[1..])
  {
    assert forall i :: 0 < i < |blocks| ==> blocks[i] == blocks[1..][i - 1];
  }

  lemma {:induction false} BlocksRead(blocks: seq<seq<Datum>>)
    requires forall i :: 0 <= i < |blocks| ==> WritableBlock(blocks[i])
    ensures EventsFrom([], BlocksLines(blocks), Exhausted) == Reading(BlocksData(blocks), Exhausted)
            <==> AllFitFrame(blocks)
  {
    if blocks == [] {
      EventsEnd([], Exhausted);
    } else {
      var rest := BlocksLines(blocks[1..]);
      FirstBlockReads(blocks[0], rest, Exhausted);
      BlocksRead(blocks[1..]);
      RoundTripCons(JoinLines(DatumValues(blocks[0])), EventsFrom([], rest, Exhausted), BlocksData(blocks[1..]));
      AllFitCons(blocks);
    }
  }

  lemma {:induction false} BlockLinesClean(ds: seq<Datum>, i: nat)
    requires (forall k :: 0 <= k < |ds| ==> Writable(ds[k])) && i < |BlockLines(ds)|
    ensures Clean(BlockLines(ds)[i]) && Units(BlockLines(ds)[i]) < MAX_FRAME_SIZE
  {
    if ds != [] {
      DatumReads(ds[0]);
      if i > 0 {
        BlockLinesClean(ds[1..], i - 1);
      }
    }
  }

  lemma {:induction false} BlocksLinesClean(blocks: seq<seq<Datum>>, i: nat)
    requires (forall k :: 0 <= k < |blocks| ==> WritableBlock(blocks[k])) && i < |BlocksLines(blocks)|
    ensures Clean(BlocksLines(blocks)[i]) && Units(BlocksLines(blocks)[i]) < MAX_FRAME_SIZE
  {
    var first := BlockLines(blocks[0]);
    if i < |first| {
      BlockLinesClean(blocks[0], i);
    } else {
      BlocksLinesClean(blocks[1..], i - |first|);
    }
  }

  /** Events of any number of data lines, with either kind of line end, read back as their values
      joined by line feeds if and only if the data of each is shorter than the bound. */
  lemma BlocksRoundTrip(blocks: seq<seq<Datum>>, crlf: seq<bool>)
    requires |crlf| == |BlocksLines(blocks)| && forall i :: 0 <= i < |blocks| ==> WritableBlock(blocks[i])
    ensures EventsOfText(Terminated(BlocksLines(blocks), crlf), Eof) == Reading(BlocksData(blocks), Exhausted)
            <==> AllFitFrame(blocks)
  {
    var lines := BlocksLines(blocks);
    forall i | 0 <= i < |lines| ensures Clean(lines[i]) && Units(lines[i]) < MAX_FRAME_SIZE {
      BlocksLinesClean(blocks, i);
    }
    assert AllFit(lines);
    WrittenLinesRead(lines, crlf, "");
    assert Terminated(lines, crlf) + "" == Terminated(lines, crlf) && lines + [] == lines;
    BlocksRead(blocks);
  }

  // --- writeSse ------------------------------------------------------------------------------------------

  datatype Kind = Delta | Done | Error

  function Name(k: Kind): string {
    match k
    case Delta => "delta"
    case Done => "done"
    case Error => "error"
  }

  datatype Message = Message(kind: Kind, payload: string)

  function EventLine(m: Message): string {
    "event: " + Name(m.kind)
  }

  function DataLine(m: Message): string {
    "data: " + m.payload
  }

  /** The text that writeSse writes for one event. */
  function Frame(m: Message): string {
    EventLine(m) + "\n" + DataLine(m) + "\n\n"
  }

  function Frames(ms: seq<Message>): string {
    if ms == [] then "" else Frame(ms[0]) + Frames(ms[1..])
  }

  function Payloads(ms: seq<Message>): seq<string> {
    if ms == [] then [] else [ms[0].payload] + Payloads(ms[1..])
  }

  /** A payload on one line, as JSON text always is. */
  predicate SingleLine(s: string) {
    '\n' !in s && '\r' !in s
  }

  const MAX_PAYLOAD := 65530

  lemma {:induction false} UnitsAtMost(s: string)
    ensures Units(s) <= 2 * |s|
  {
    if s != "" {
      UnitsAtMost(s[1..]);
    }
  }

  lemma NamesFit(m: Message)
    ensures OneLine(EventLine(m)) && Strip(EventLine(m)) == EventLine(m)
    ensures Units(EventLine(m)) <= MAX_FRAME_SIZE && EventLine(m) != "" && !IsData(EventLine(m))
  {
    UnitsAtMost(EventLine(m));
    assert EventLine(m)[0] == 'e';
    assert "data:"[0] == 'd';
  }

  lemma DataLineReads(m: Message)
    requires SingleLine(m.payload)
    ensures OneLine(DataLine(m)) && Strip(DataLine(m)) == DataLine(m)
    ensures IsData(DataLine(m)) && Value(DataLine(m)) == m.payload
    ensures Units(DataLine(m)) == 6 + Units(m.payload)
  {
    UnitsConcat("data: ", m.payload);
    assert Units("data: ") == 6;
    var line := DataLine(m);
    assert line[..5] == "data:" && line[5] == ' ' && line[6..] == m.payload;
    assert line[|line| - 1] == if m.payload == "" then ' ' else m.payload[|m.payload| - 1];
  }

  lemma FrameText(m: Message, rest: string)
    ensures Frame(m) + rest == EventLine(m) + "\n" + (DataLine(m) + "\n" + ("" + "\n" + rest))
  {
  }

  lemma PrependThree(x: string, y: string, z: string, r: Reading)
    ensures Prepend([x], Prepend([y], Prepend([z], r))) == Prepend([x, y, z], r)
  {
    assert [x] + ([y] + ([z] + r.items)) == [x, y, z] + r.items;
  }

  /** Reading a frame: its event line, its data line and the blank line that ends it. */
  lemma FrameLines(m: Message, rest: string, end: End)
    requires SingleLine(m.payload)
    ensures LinesOf(Frame(m) + rest, end) ==
            if Units(m.payload) > MAX_PAYLOAD then Reading([EventLine(m)], ResponseError)
            else Prepend([EventLine(m), DataLine(m), ""], LinesOf(rest, end))
  {
    FrameText(m, rest);
    NamesFit(m);
    DataLineReads(m);
    ThreeLines(EventLine(m), DataLine(m), rest, end);
  }

  lemma ThreeLines(a: string, b: string, rest: string, end: End)
    requires OneLine(a) && OneLine(b) && Strip(a) == a && Strip(b) == b && Units(a) <= MAX_FRAME_SIZE
    ensures LinesOf(a + "\n" + (b + "\n" + ("" + "\n" + rest)), end) ==
            if Units(b) > MAX_FRAME_SIZE then Reading([a], ResponseError)
            else Prepend([a, b, ""], LinesOf(rest, end))
  {
    LinesStep(a, b + "\n" + ("" + "\n" + rest), end);
    LinesStep(b, "" + "\n" + rest, end);
    LinesStep("", rest, end);
    PrependThree(a, b, "", LinesOf(rest, end));
  }

  lemma FrameEvents(m: Message, lines: seq<string>, verdict: Verdict)
    requires SingleLine(m.payload) && Units(m.payload) <= MAX_PAYLOAD
    ensures EventsFrom([], [EventLine(m), DataLine(m), ""] + lines, verdict)
            == Prepend([m.payload], EventsFrom([], lines, verdict))
  {
    NamesFit(m);
    DataLineReads(m);
    var afterEvent := [DataLine(m)] + ([""] + lines);
    assert [EventLine(m), DataLine(m), ""] + lines == [EventLine(m)] + afterEvent;
    EventsIgnored([], EventLine(m), afterEvent, verdict);
    EventsValue([], DataLine(m), [""] + lines, verdict);
    assert [] + [m.payload] == [m.payload];
    assert Size([m.payload]) == Units(m.payload) + 1 by { assert [m.payload][1..] == []; }
    EventsBlank([m.payload], lines, verdict);
  }

  /** Print/parse round trip: the frames of single-line payloads read back as exactly those
      payloads, whatever the chunking, if and only if no payload is longer than 65,530 units. */
  lemma {:induction false} FramesRoundTrip(ms: seq<Message>)
    requires forall m :: m in ms ==> SingleLine(m.payload)
    ensures EventsOfText(Frames(ms), Eof) == Reading(Payloads(ms), Exhausted)
            <==> forall m :: m in ms ==> Units(m.payload) <= MAX_PAYLOAD
  {
    if ms == [] {
      LinesEnd("", Eof);
      EventsEnd([], Exhausted);
    } else {
      var m, rest := ms[0], Frames(ms[1..]);
      FrameLines(m, rest, Eof);
      if Units(m.payload) > MAX_PAYLOAD {
        LongFrameFails(m);
        assert m in ms;
      } else {
        var lines := LinesOf(rest, Eof);
        FrameEvents(m, lines.items, lines.verdict);
        FramesRoundTrip(ms[1..]);
        RoundTripCons(m.payload, EventsOf(lines), Payloads(ms[1..]));
        assert forall x :: x in ms <==> x == m || x in ms[1..];
      }
    }
  }

  lemma LongFrameFails(m: Message)
    ensures EventsOf(Reading([EventLine(m)], ResponseError)).verdict != Exhausted
  {
    NamesFit(m);
    assert [EventLine(m)] == [EventLine(m)] + [];
    EventsIgnored([], EventLine(m), [], ResponseError);
    EventsEnd([], ResponseError);
  }

  lemma RoundTripCons(x: string, r: Reading, items: seq<string>)
    ensures Prepend([x], r) == Reading([x] + items, Exhausted) <==> r == Reading(items, Exhausted)
  {
    if [x] + r.items == [x] + items {
      assert r.items == ([x] + r.items)[1..] == ([x] + items)[1..] == items;
    }
  }

  // --- What a client reads ------------------------------------------------------------------------------

  function KindOf(name: string): Option<Kind> {
    if name == "delta" then Some(Delta)
    else if name == "done" then Some(Done)
    else if name == "error" then Some(Error)
    else None
  }

  predicate IsEvent(line: string) {
    |line| >= 7 && line[..7] == "event: "
  }

  /** A client of the stream: at a blank line it has an event of the type that was announced, with
      the data since the last blank line. */
  function Client(announced: string, data: seq<string>, lines: seq<string>): seq<Message>
    decreases lines
  {
    if lines == [] then []
    else if lines[0] == "" then
      (if data != [] && KindOf(announced).Some? then [Message(KindOf(announced).value, JoinLines(data))] else [])
      + Client("", [], lines[1..])
    else if IsEvent(lines[0]) then Client(lines[0][7..], data, lines[1..])
    else if IsData(lines[0]) then Client(announced, data + [Value(lines[0])], lines[1..])
    else Client(announced, data, lines[1..])
  }

  lemma NameIsKind(k: Kind)
    ensures KindOf(Name(k)) == Some(k)
  {
    assert |"delta"| == 5 && |"done"| == 4 && |"error"| == 5;
    assert "delta"[0] == 'd' && "error"[0] == 'e';
  }

  lemma EventLineAnnounces(m: Message)
    ensures IsEvent(EventLine(m)) && EventLine(m)[7..] == Name(m.kind)
  {
  }

  lemma DataIsNoEvent(m: Message)
    ensures !IsEvent(DataLine(m))
  {
    assert DataLine(m)[0] == 'd';
    assert "event: "[0] == 'e';
  }

  lemma ClientEvent(name: string, data: seq<string>, line: string, rest: seq<string>)
    requires IsEvent(line)
    ensures Client(name, data, [line] + rest) == Client(line[7..], data, rest)
  {
    assert ([line] + rest)[1..] == rest;
  }

  lemma ClientData(name: string, data: seq<string>, line: string, rest: seq<string>)
    requires IsData(line) && !IsEvent(line)
    ensures Client(name, data, [line] + rest) == Client(name, data + [Value(line)], rest)
  {
    assert ([line] + rest)[1..] == rest;
  }

  lemma ClientDispatches(k: Kind, payload: string, rest: seq<string>)
    ensures Client(Name(k), [payload], [""] + rest) == [Message(k, payload)] + Client("", [], rest)
  {
    NameIsKind(k);
    assert ([""] + rest)[1..] == rest;
  }

  lemma ClientFrame(m: Message, lines: seq<string>)
    requires SingleLine(m.payload)
    ensures Client("", [], [EventLine(m), DataLine(m), ""] + lines) == [m] + Client("", [], lines)
  {
    DataLineReads(m);
    EventLineAnnounces(m);
    DataIsNoEvent(m);
    assert [EventLine(m), DataLine(m), ""] + lines == [EventLine(m)] + ([DataLine(m)] + ([""] + lines));
    ClientEvent("", [], EventLine(m), [DataLine(m)] + ([""] + lines));
    ClientData(Name(m.kind), [], DataLine(m), [""] + lines);
    assert [] + [m.payload] == [m.payload];
    ClientDispatches(m.kind, m.payload, lines);
  }

  /** A client reads exactly the messages that were written: kind, payload and order. */
  lemma {:induction false} ClientGetsMessages(ms: seq<Message>)
    requires forall m :: m in ms ==> SingleLine(m.payload) && Units(m.payload) <= MAX_PAYLOAD
    ensures Client("", [], LinesOf(Frames(ms), Eof).items) == ms
  {
    if ms == [] {
      LinesEnd("", Eof);
    } else {
      var rest := Frames(ms[1..]);
      FrameLines(ms[0], rest, Eof);
      ClientFrame(ms[0], LinesOf(rest, Eof).items);
      ClientGetsMessages(ms[1..]);
      assert ms == [ms[0]] + ms[1..];
    }
  }

  /** In particular every JSON payload that fits survives. */
  lemma JsonFramesRoundTrip(kinds: seq<Kind>, values: seq<Json.Json>, ms: seq<Message>)
    requires |kinds| == |values| == |ms|
    requires forall i :: 0 <= i < |ms| ==>
               Json.WellFormed(values[i]) && ms[i] == Message(kinds[i], Json.Text(values[i]))
    requires forall i :: 0 <= i < |ms| ==> Units(ms[i].payload) <= MAX_PAYLOAD
    ensures EventsOfText(Frames(ms), Eof) == Reading(Payloads(ms), Exhausted)
  {
    forall m | m in ms ensures SingleLine(m.payload) {
      var i :| 0 <= i < |ms| && ms[i] == m;
      Json.PrintNoControls(values[i], "");
    }
    FramesRoundTrip(ms);
  }
}
