/** The streaming adapters of the two providers: acceptors over server-sent events (OpenAI) and
    over lines of JSON (Ollama). JSON.parse and String() are abstract; the consumer of the deltas
    always resolves here. */
module ProviderStreams {
  import opened Wrappers
  import opened Json
  import opened StreamParser
  import opened SseData

  datatype Codec = Codec(parse: string -> Option<Json>, show: Json -> string)

  datatype Outcome = Resolved | Rejected(verdict: Verdict)

  /** What the consumer got, and how the call ended. */
  datatype Result = Result(deltas: seq<string>, outcome: Outcome)

  function Field(j: Json, key: string): Option<Json> {
    if j.Obj? then Lookup(j.props, key) else None
  }

  function Lookup(props: seq<Prop>, key: string): Option<Json> {
    if props == [] then None
    else if props[0].key == key then Some(props[0].value)
    else Lookup(props[1..], key)
  }

  /** Absent or null, which the adapters do not tell apart. */
  predicate Nil(v: Option<Json>) {
    v.None? || v.value.Null?
  }

  /** Empty text is not handed on. */
  function Deliver(content: string): seq<string> {
    if content == "" then [] else [content]
  }

  function Before(deltas: seq<string>, r: Result): Result {
    r.(deltas := deltas + r.deltas)
  }

  // --- OpenAI -----------------------------------------------------------------------------------

  datatype Finish = Open | Finishes | Unknown

  datatype Event = Terminator | Malformed | UsageOnly | Chunk(content: string, finish: Finish)

  /** textContent, or "" when both content and refusal are absent. */
  function DeltaText(delta: Json): Option<string> {
    var content, refusal := Field(delta, "content"), Field(delta, "refusal");
    if Nil(content) && Nil(refusal) then Some("")
    else if content.Some? && content.value.Str? then Some(content.value.text)
    else if Nil(content) && refusal.Some? && refusal.value.Str? then Some(refusal.value.text)
    else None
  }

  function FinishOf(c: Codec, choice: Json): Finish {
    var reason := Field(choice, "finish_reason");
    if Nil(reason) then Open
    else if c.show(reason.value) in ["stop", "length", "content_filter"] then Finishes
    else Unknown
  }

  function ClassifyChoice(c: Codec, choice: Json): Event {
    var delta, index := Field(choice, "delta"), Field(choice, "index");
    if !choice.Obj? || delta.None? || !delta.value.Obj? || (index.Some? && index.value != Num("0")) then Malformed
    else
      var role := Field(delta.value, "role");
      if (role.Some? && role.value != Str("assistant"))
         || Field(delta.value, "tool_calls").Some? || Field(delta.value, "function_call").Some? then Malformed
      else match DeltaText(delta.value)
        case None => Malformed
        case Some(text) => Chunk(text, FinishOf(c, choice))
  }

  function Classify(c: Codec, event: string): Event {
    if event == "[DONE]" then Terminator
    else match c.parse(event)
      case None => Malformed
      case Some(data) =>
        var choices := Field(data, "choices");
        if !data.Obj? || Field(data, "error").Some? || choices.None? || !choices.value.Arr? then Malformed
        else if choices.value.items == [] then UsageOnly
        else ClassifyChoice(c, choices.value.items[0])
  }

  /** The loop of `stream` from some point on. */
  function OpenAiFrom(c: Codec, finished: bool, events: seq<string>, verdict: Verdict): Result
    decreases events
  {
    if events == [] then Result([], Rejected(if verdict == Exhausted then ResponseError else verdict))
    else match Classify(c, events[0])
      case Terminator => Result([], if finished then Resolved else Rejected(ResponseError))
      case Malformed => Result([], Rejected(ResponseError))
      case UsageOnly => OpenAiFrom(c, finished, events[1..], verdict)
      case Chunk(content, finish) =>
        if finished then Result([], Rejected(ResponseError))
        else if finish == Unknown then Result(Deliver(content), Rejected(ResponseError))
        else Before(Deliver(content), OpenAiFrom(c, finish == Finishes, events[1..], verdict))
  }

  function OpenAiOf(c: Codec, text: string, end: End): Result {
    var events := EventsOfText(text, end);
    OpenAiFrom(c, false, events.items, events.verdict)
  }

  method OpenAiEvents(c: Codec, events: seq<string>, verdict: Verdict) returns (deltas: seq<string>, outcome: Outcome)
    ensures Result(deltas, outcome) == OpenAiFrom(c, false, events, verdict)
  {
    deltas := [];
    var finished := false;
    var n := 0;
    ghost var goal := OpenAiFrom(c, false, events, verdict);
    assert events[n..] == events;
    assert goal.deltas == [] + goal.deltas;
    while n < |events|
      invariant 0 <= n <= |events|
      invariant goal == Before(deltas, OpenAiFrom(c, finished, events[n..], verdict))
    {
      assert events[n..][1..] == events[n + 1..];
      match Classify(c, events[n]) {
        case Terminator =>
          return deltas, if finished then Resolved else Rejected(ResponseError);
        case Malformed =>
          return deltas, Rejected(ResponseError);
        case UsageOnly =>
        case Chunk(content, finish) =>
          if finished {
            return deltas, Rejected(ResponseError);
          }
          BeforeTwice(deltas, content, OpenAiFrom(c, finish == Finishes, events[n + 1..], verdict));
          if content != "" {
            deltas := deltas + [content];
          }
          if finish == Unknown {
            return deltas, Rejected(ResponseError);
          }
          finished := finish == Finishes;
      }
      n := n + 1;
    }
    return deltas, Rejected(if verdict == Exhausted then ResponseError else verdict);
  }

  lemma BeforeTwice(deltas: seq<string>, content: string, r: Result)
    ensures Before(deltas, Before(Deliver(content), r))
            == Before(if content == "" then deltas else deltas + [content], r)
  {
    assert deltas + (Deliver(content) + r.deltas) == deltas + Deliver(content) + r.deltas;
    assert deltas + [] == deltas;
  }

  /** The whole adapter: network chunks in, deltas and the outcome of the call out. They depend
      on the text alone, not on how the network cut it. */
  method OpenAiStream(c: Codec, chunks: seq<string>, end: End) returns (deltas: seq<string>, outcome: Outcome)
    ensures Result(deltas, outcome) == OpenAiOf(c, Concat(chunks), end)
  {
    var events, verdict := ReadEvents(chunks, end);
    deltas, outcome := OpenAiEvents(c, events, verdict);
  }

  // --- What the OpenAI classification means -----------------------------------------------------------

  /** On well-formed values a lookup finds exactly the property that is there. */
  lemma {:induction false} LookupFinds(props: seq<Prop>, key: string, value: Json)
    requires DistinctKeys(props)
    ensures Lookup(props, key) == Some(value) <==> Prop(key, value) in props
  {
    if props != [] {
      LookupFinds(props[1..], key, value);
      assert props == [props[0]] + props[1..];
    }
  }

  /** The text of a delta: its content, or its refusal when there is no content, or nothing when
      there is neither. */
  predicate ReadsAs(delta: Json, text: string) {
    || Field(delta, "content") == Some(Str(text))
    || (Nil(Field(delta, "content")) && Field(delta, "refusal") == Some(Str(text)))
    || (Nil(Field(delta, "content")) && Nil(Field(delta, "refusal")) && text == "")
  }

  predicate EndsAs(c: Codec, reason: Option<Json>, finish: Finish) {
    match finish
    case Open => reason == None || reason == Some(Null)
    case Finishes => !Nil(reason) && (var r := c.show(reason.value); r == "stop" || r == "length" || r == "content_filter")
    case Unknown => !Nil(reason) && (var r := c.show(reason.value); r != "stop" && r != "length" && r != "content_filter")
  }

  predicate AbsentOr(v: Option<Json>, expected: Json) {
    v == None || v == Some(expected)
  }

  /** An event with an answer: no error, a first choice of index 0, an assistant's delta without
      tool calls. */
  predicate IsChunk(c: Codec, data: Json, text: string, finish: Finish) {
    && Field(data, "error") == None
    && Field(data, "choices").Some? && Field(data, "choices").value.Arr? && Field(data, "choices").value.items != []
    && var choice := Field(data, "choices").value.items[0];
       && AbsentOr(Field(choice, "index"), Num("0"))
       && EndsAs(c, Field(choice, "finish_reason"), finish)
       && Field(choice, "delta").Some?
       && var delta := Field(choice, "delta").value;
          && delta.Obj? && AbsentOr(Field(delta, "role"), Str("assistant"))
          && Field(delta, "tool_calls") == None && Field(delta, "function_call") == None
          && ReadsAs(delta, text)
  }

  predicate IsUsage(data: Json) {
    Field(data, "error") == None && Field(data, "choices") == Some(Arr([]))
  }

  lemma DeltaTextMeans(delta: Json, text: string)
    ensures DeltaText(delta) == Some(text) <==> ReadsAs(delta, text)
  {
  }

  lemma ChoiceMeans(c: Codec, data: Json, text: string, finish: Finish)
    requires Field(data, "error") == None
    requires Field(data, "choices").Some? && Field(data, "choices").value.Arr? && Field(data, "choices").value.items != []
    ensures ClassifyChoice(c, Field(data, "choices").value.items[0]) == Chunk(text, finish) <==> IsChunk(c, data, text, finish)
  {
    var choice := Field(data, "choices").value.items[0];
    if Field(choice, "delta").Some? {
      DeltaTextMeans(Field(choice, "delta").value, text);
    }
  }

  /** Which events the adapter takes for what. */
  lemma ClassifyMeans(c: Codec, event: string, text: string, finish: Finish)
    ensures Classify(c, event) == Terminator <==> event == "[DONE]"
    ensures event != "[DONE]" ==>
              && (Classify(c, event) == UsageOnly <==> exists data :: c.parse(event) == Some(data) && IsUsage(data))
              && (Classify(c, event) == Chunk(text, finish) <==>
                    exists data :: c.parse(event) == Some(data) && IsChunk(c, data, text, finish))
  {
    if event != "[DONE]" && c.parse(event).Some? {
      var data := c.parse(event).value;
      var choices := Field(data, "choices");
      if Field(data, "error") == None && choices.Some? && choices.value.Arr? && choices.value.items != [] {
        ChoiceMeans(c, data, text, finish);
      }
    }
  }

  // --- A stream written out in JSON ----------------------------------------------------------------------

  /** JSON.parse reads back what JSON.stringify prints, and String() leaves strings alone. */
  ghost predicate Faithful(c: Codec) {
    (forall j :: WellFormed(j) ==> c.parse(Text(j)) == Some(j)) && (forall s :: c.show(Str(s)) == s)
  }

  lemma ParserIsFaithful(show: Json -> string)
    requires forall s :: show(Str(s)) == s
    ensures Faithful(Codec(Parse, show))
  {
    forall j | WellFormed(j) ensures Parse(Text(j)) == Some(j) {
      ParseText(j);
    }
  }

  datatype Delta = Content(text: string) | Refusal(text: string) | RoleOnly

  function DeltaJson(d: Delta): Json {
    match d
    case Content(text) => Obj([Prop("content", Str(text))])
    case Refusal(text) => Obj([Prop("content", Null), Prop("refusal", Str(text))])
    case RoleOnly => Obj([Prop("role", Str("assistant"))])
  }

  function DeltaShown(d: Delta): string {
    if d.RoleOnly? then "" else d.text
  }

  function ChoiceJson(d: Delta, reason: Json): Json {
    Obj([Prop("index", Num("0")), Prop("delta", DeltaJson(d)), Prop("finish_reason", reason)])
  }

  function ChunkJson(d: Delta, reason: Json): Json {
    Obj([Prop("choices", Arr([ChoiceJson(d, reason)]))])
  }

  lemma LookupCons(p: Prop, rest: seq<Prop>, key: string)
    ensures Lookup([p] + rest, key) == if p.key == key then Some(p.value) else Lookup(rest, key)
  {
    assert ([p] + rest)[1..] == rest;
  }

  lemma LookupTwo(p: Prop, q: Prop, key: string)
    ensures Lookup([p, q], key) == if p.key == key then Some(p.value) else if q.key == key then Some(q.value) else None
  {
    assert [p, q] == [p] + [q] && [q] == [q] + [];
    LookupCons(p, [q], key);
    LookupCons(q, [], key);
  }

  lemma NamesDiffer()
    ensures "content" != "refusal" && "content" != "role" && "refusal" != "role" && "choices" != "error"
    ensures "index" != "delta" && "index" != "finish_reason" && "delta" != "finish_reason"
    ensures "content" != "tool_calls" && "refusal" != "tool_calls" && "role" != "tool_calls"
    ensures "content" != "function_call" && "refusal" != "function_call" && "role" != "function_call"
  {
    assert "content"[0] == 'c' && "refusal"[0] == 'r' && "index"[0] == 'i' && "delta"[0] == 'd';
    assert |"content"| == 7 && |"refusal"| == 7 && |"role"| == 4 && |"tool_calls"| == 10 && |"function_call"| == 13;
    assert |"choices"| == 7 && |"error"| == 5 && |"index"| == 5 && |"delta"| == 5 && |"finish_reason"| == 13;
  }

  lemma LookupOne(p: Prop, key: string)
    ensures Lookup([p], key) == if p.key == key then Some(p.value) else None
  {
    assert [p][1..] == [];
  }

  lemma DeltaField(d: Delta, key: string)
    ensures Field(DeltaJson(d), key) ==
            match d
            case Content(text) => if key == "content" then Some(Str(text)) else None
            case Refusal(text) => if key == "content" then Some(Null) else if key == "refusal" then Some(Str(text)) else None
            case RoleOnly => if key == "role" then Some(Str("assistant")) else None
  {
    match d {
      case Content(text) => LookupOne(Prop("content", Str(text)), key);
      case Refusal(text) => LookupTwo(Prop("content", Null), Prop("refusal", Str(text)), key);
      case RoleOnly => LookupOne(Prop("role", Str("assistant")), key);
    }
  }

  lemma DeltaWellFormed(d: Delta)
    ensures WellFormed(DeltaJson(d))
  {
    NamesDiffer();
  }

  lemma DeltaFields(d: Delta)
    ensures var j := DeltaJson(d);
            && WellFormed(j) && ReadsAs(j, DeltaShown(d)) && AbsentOr(Field(j, "role"), Str("assistant"))
            && Field(j, "tool_calls") == None && Field(j, "function_call") == None
  {
    NamesDiffer();
    DeltaWellFormed(d);
    DeltaField(d, "content");
    DeltaField(d, "refusal");
    DeltaField(d, "role");
    DeltaField(d, "tool_calls");
    DeltaField(d, "function_call");
  }

  lemma ChoiceField(d: Delta, reason: Json, key: string)
    ensures Field(ChoiceJson(d, reason), key) ==
            if key == "index" then Some(Num("0")) else if key == "delta" then Some(DeltaJson(d))
            else if key == "finish_reason" then Some(reason) else None
  {
    var index, delta, finish := Prop("index", Num("0")), Prop("delta", DeltaJson(d)), Prop("finish_reason", reason);
    assert ChoiceJson(d, reason).props == [index] + [delta, finish];
    LookupCons(index, [delta, finish], key);
    LookupTwo(delta, finish, key);
  }

  lemma ChoiceWellFormed(d: Delta, reason: Json)
    requires WellFormed(reason)
    ensures WellFormed(ChoiceJson(d, reason))
  {
    NamesDiffer();
    DeltaWellFormed(d);
    assert NumberLiteral("0");
  }

  lemma ChoiceFields(d: Delta, reason: Json)
    requires WellFormed(reason)
    ensures var j := ChoiceJson(d, reason);
            && WellFormed(j) && Field(j, "index") == Some(Num("0")) && Field(j, "delta") == Some(DeltaJson(d))
            && Field(j, "finish_reason") == Some(reason)
  {
    NamesDiffer();
    ChoiceWellFormed(d, reason);
    ChoiceField(d, reason, "index");
    ChoiceField(d, reason, "delta");
    ChoiceField(d, reason, "finish_reason");
  }

  lemma ChunkFields(d: Delta, reason: Json)
    requires WellFormed(reason)
    ensures var j := ChunkJson(d, reason);
            && WellFormed(j) && Field(j, "choices") == Some(Arr([ChoiceJson(d, reason)])) && Field(j, "error") == None
            && Text(j)[0] == '{'
  {
    NamesDiffer();
    ChoiceFields(d, reason);
    var choices := Prop("choices", Arr([ChoiceJson(d, reason)]));
    assert WellFormed(choices.value);
    LookupCons(choices, [], "choices");
    LookupCons(choices, [], "error");
    assert [choices] + [] == [choices];
  }

  function FinishFor(reason: Json): Finish {
    if reason == Null then Open
    else if reason in [Str("stop"), Str("length"), Str("content_filter")] then Finishes else Unknown
  }

  lemma ReasonMeans(c: Codec, reason: Json)
    requires (reason == Null || reason.Str?) && forall s :: c.show(Str(s)) == s
    ensures EndsAs(c, Some(reason), FinishFor(reason))
  {
    if reason.Str? {
      assert c.show(Str(reason.text)) == reason.text;
    }
  }

  lemma ChunkIs(c: Codec, d: Delta, reason: Json)
    requires Faithful(c) && (reason == Null || reason.Str?)
    ensures IsChunk(c, ChunkJson(d, reason), DeltaShown(d), FinishFor(reason))
  {
    ChunkFields(d, reason);
    ChoiceFields(d, reason);
    DeltaFields(d);
    ReasonMeans(c, reason);
  }

  lemma NotTerminator(event: string)
    requires event != "" && event[0] == '{'
    ensures event != "[DONE]"
  {
    assert "[DONE]"[0] == '[';
  }

  lemma ChunkRead(c: Codec, d: Delta, reason: Json)
    requires Faithful(c) && (reason == Null || reason.Str?)
    ensures Classify(c, Text(ChunkJson(d, reason))) == Chunk(DeltaShown(d), FinishFor(reason))
  {
    var j := ChunkJson(d, reason);
    ChunkFields(d, reason);
    ChunkIs(c, d, reason);
    NotTerminator(Text(j));
    ClassifyMeans(c, Text(j), DeltaShown(d), FinishFor(reason));
  }

  /** The events of an answer: the deltas, the last one with its finish reason, and the end. */
  function AnswerEvents(ds: seq<Delta>, last: Delta, reason: string): seq<string> {
    if ds == [] then [Text(ChunkJson(last, Str(reason))), "[DONE]"]
    else [Text(ChunkJson(ds[0], Null))] + AnswerEvents(ds[1..], last, reason)
  }

  /** Its non-empty texts. */
  function AnswerTexts(ds: seq<Delta>, last: Delta): seq<string> {
    var text := DeltaShown(if ds == [] then last else ds[0]);
    (if text == "" then [] else [text]) + (if ds == [] then [] else AnswerTexts(ds[1..], last))
  }

  lemma FinishThenDone(c: Codec, event: string, text: string, verdict: Verdict)
    requires Classify(c, event) == Chunk(text, Finishes)
    ensures OpenAiFrom(c, false, [event, "[DONE]"], verdict) == Result(Deliver(text), Resolved)
  {
    assert [event, "[DONE]"][1..] == ["[DONE]"];
    assert OpenAiFrom(c, true, ["[DONE]"], verdict) == Result([], Resolved);
    assert Deliver(text) + [] == Deliver(text);
  }

  lemma ChunkStep(c: Codec, event: string, text: string, events: seq<string>, verdict: Verdict)
    requires Classify(c, event) == Chunk(text, Open)
    ensures OpenAiFrom(c, false, [event] + events, verdict)
            == Before(Deliver(text), OpenAiFrom(c, false, events, verdict))
  {
    assert ([event] + events)[1..] == events;
  }

  lemma {:induction false} AnswerResolves(c: Codec, ds: seq<Delta>, last: Delta, reason: string, verdict: Verdict)
    requires Faithful(c) && reason in ["stop", "length", "content_filter"]
    ensures OpenAiFrom(c, false, AnswerEvents(ds, last, reason), verdict) == Result(AnswerTexts(ds, last), Resolved)
    decreases ds
  {
    if ds == [] {
      ChunkRead(c, last, Str(reason));
      FinishThenDone(c, Text(ChunkJson(last, Str(reason))), DeltaShown(last), verdict);
    } else {
      ChunkRead(c, ds[0], Null);
      ChunkStep(c, Text(ChunkJson(ds[0], Null)), DeltaShown(ds[0]), AnswerEvents(ds[1..], last, reason), verdict);
      AnswerResolves(c, ds[1..], last, reason, verdict);
    }
  }

  /** Each event on one data line. */
  function Blocks(events: seq<string>, spaced: bool): (r: seq<seq<Datum>>)
    ensures |r| == |events| && forall i :: 0 <= i < |events| ==> r[i] == [Datum(events[i], spaced)]
  {
    if events == [] then [] else [[Datum(events[0], spaced)]] + Blocks(events[1..], spaced)
  }

  lemma {:induction false} BlocksCarry(events: seq<string>, spaced: bool)
    ensures BlocksData(Blocks(events, spaced)) == events
  {
    if events != [] {
      BlocksCarry(events[1..], spaced);
      assert DatumValues([Datum(events[0], spaced)]) == [events[0]];
      assert events == [events[0]] + events[1..];
    }
  }

  /** An event that fits on one data line. */
  predicate EventFits(event: string) {
    Clean(event) && Units(event) + 6 < MAX_FRAME_SIZE && (event == "" || event[0] != ' ')
  }

  lemma EventsCarried(events: seq<string>, spaced: bool, crlf: seq<bool>)
    requires forall i :: 0 <= i < |events| ==> EventFits(events[i])
    requires |crlf| == |BlocksLines(Blocks(events, spaced))|
    ensures EventsOfText(Terminated(BlocksLines(Blocks(events, spaced)), crlf), Eof) == Reading(events, Exhausted)
  {
    var blocks := Blocks(events, spaced);
    forall i | 0 <= i < |blocks| ensures WritableBlock(blocks[i]) && FitsFrame(blocks[i]) {
      assert EventFits(events[i]) && blocks[i] == [Datum(events[i], spaced)];
      assert DatumValues(blocks[i]) == [events[i]];
    }
    BlocksRoundTrip(blocks, crlf);
    BlocksCarry(events, spaced);
  }

  /** Printed JSON is on one line and does not start with a space. */
  lemma PrintedFits(j: Json)
    requires WellFormed(j) && j.Obj?
    ensures Clean(Text(j)) && Text(j) != "" && Text(j)[0] == '{'
  {
    PrintNoControls(j, "");
  }

  lemma {:induction false} AnswerFits(ds: seq<Delta>, last: Delta, reason: string, i: nat)
    requires i < |AnswerEvents(ds, last, reason)|
    ensures var event := AnswerEvents(ds, last, reason)[i]; Clean(event) && event != "" && event[0] != ' '
    decreases ds
  {
    if ds == [] {
      ChunkFields(last, Str(reason));
      PrintedFits(ChunkJson(last, Str(reason)));
    } else if i == 0 {
      ChunkFields(ds[0], Null);
      PrintedFits(ChunkJson(ds[0], Null));
    } else {
      AnswerFits(ds[1..], last, reason, i - 1);
    }
  }

  /** Round trip: an answer written as JSON events, with any line ends, resolves and delivers
      exactly its non-empty texts in order, refusals included. */
  lemma OpenAiRoundTrip(c: Codec, ds: seq<Delta>, last: Delta, reason: string, spaced: bool, crlf: seq<bool>)
    requires Faithful(c) && reason in ["stop", "length", "content_filter"]
    requires forall i :: 0 <= i < |AnswerEvents(ds, last, reason)| ==>
               Units(AnswerEvents(ds, last, reason)[i]) + 6 < MAX_FRAME_SIZE
    requires |crlf| == |BlocksLines(Blocks(AnswerEvents(ds, last, reason), spaced))|
    ensures OpenAiOf(c, Terminated(BlocksLines(Blocks(AnswerEvents(ds, last, reason), spaced)), crlf), Eof)
            == Result(AnswerTexts(ds, last), Resolved)
  {
    forall i | 0 <= i < |AnswerEvents(ds, last, reason)| ensures EventFits(AnswerEvents(ds, last, reason)[i]) {
      AnswerFits(ds, last, reason, i);
    }
    EventsCarried(AnswerEvents(ds, last, reason), spaced, crlf);
    AnswerResolves(c, ds, last, reason, Exhausted);
  }

  // --- When OpenAI streams succeed and fail -----------------------------------------------------------------

  /** The text that an event carries, as it is delivered. */
  function Carried(c: Codec, event: string): seq<string> {
    var e := Classify(c, event);
    if e.Chunk? then Deliver(e.content) else []
  }

  function Contents(c: Codec, events: seq<string>): seq<string> {
    if events == [] then [] else Carried(c, events[0]) + Contents(c, events[1..])
  }

  predicate Harmless(c: Codec, event: string) {
    var e := Classify(c, event);
    e.UsageOnly? || (e.Chunk? && e.finish == Open)
  }

  /** The stream is complete at event k: [DONE] preceded by exactly one finish reason, at event f,
      after which there were only usage events. */
  predicate CompleteAt(c: Codec, events: seq<string>, f: nat, k: nat) {
    && f < k < |events| && Classify(c, events[k]).Terminator?
    && (forall i :: 0 <= i < f ==> Harmless(c, events[i]))
    && Classify(c, events[f]).Chunk? && Classify(c, events[f]).finish == Finishes
    && (forall i :: f < i < k ==> Classify(c, events[i]).UsageOnly?)
  }

  predicate DoneAt(c: Codec, events: seq<string>, k: nat) {
    && k < |events| && Classify(c, events[k]).Terminator?
    && forall i :: 0 <= i < k ==> Classify(c, events[i]).UsageOnly?
  }

  lemma {:induction false} FinishedResolves(c: Codec, events: seq<string>, verdict: Verdict)
    ensures OpenAiFrom(c, true, events, verdict).deltas == []
    ensures OpenAiFrom(c, true, events, verdict).outcome == Resolved ==> exists k: nat :: DoneAt(c, events, k)
    ensures forall k: nat :: DoneAt(c, events, k) ==>
              OpenAiFrom(c, true, events, verdict).outcome == Resolved && Contents(c, events[..k]) == []
    decreases events
  {
    if events != [] {
      var tail := events[1..];
      if Classify(c, events[0]).Terminator? {
        assert DoneAt(c, events, 0);
        assert forall k: nat :: DoneAt(c, events, k) ==> k == 0;
      } else if Classify(c, events[0]).UsageOnly? {
        FinishedResolves(c, tail, verdict);
        if OpenAiFrom(c, true, tail, verdict).outcome == Resolved {
          var j: nat :| DoneAt(c, tail, j);
          assert DoneAt(c, events, j + 1);
        }
        forall k: nat | DoneAt(c, events, k)
          ensures OpenAiFrom(c, true, events, verdict).outcome == Resolved && Contents(c, events[..k]) == []
        {
          assert DoneAt(c, tail, k - 1);
          assert events[..k][1..] == tail[..k - 1];
        }
      }
    }
  }

  lemma {:induction false} UnfinishedResolves(c: Codec, events: seq<string>, verdict: Verdict)
    ensures OpenAiFrom(c, false, events, verdict).outcome == Resolved ==> exists f: nat, k: nat :: CompleteAt(c, events, f, k)
    decreases events
  {
    if events != [] && OpenAiFrom(c, false, events, verdict).outcome == Resolved {
      var e, tail := Classify(c, events[0]), events[1..];
      if e.Chunk? && e.finish == Finishes {
        FinishedResolves(c, tail, verdict);
        var k: nat :| DoneAt(c, tail, k);
        assert CompleteAt(c, events, 0, k + 1);
      } else {
        UnfinishedResolves(c, tail, verdict);
        var f: nat, k: nat :| CompleteAt(c, tail, f, k);
        assert CompleteAt(c, events, f + 1, k + 1);
      }
    }
  }

  // --- Reading a stream step by step -------------------------------------------------------------------

  lemma BeforeBefore(a: seq<string>, b: seq<string>, r: Result)
    ensures Before(a, Before(b, r)) == Before(a + b, r)
    ensures Before([], r) == r
  {
    assert a + (b + r.deltas) == a + b + r.deltas;
  }

  lemma HarmlessStep(c: Codec, events: seq<string>, verdict: Verdict)
    requires events != [] && Harmless(c, events[0])
    ensures OpenAiFrom(c, false, events, verdict)
            == Before(Carried(c, events[0]), OpenAiFrom(c, false, events[1..], verdict))
  {
    BeforeBefore([], [], OpenAiFrom(c, false, events[1..], verdict));
  }

  lemma FrontCons(events: seq<string>, n: nat)
    requires 0 < n <= |events|
    ensures events[..n][0] == events[0] && events[..n][1..] == events[1..][..n - 1]
    ensures events[1..][n - 1..] == events[n..]
  {
  }

  lemma {:induction false} HarmlessPrefix(c: Codec, events: seq<string>, n: nat, verdict: Verdict)
    requires n <= |events| && forall i :: 0 <= i < n ==> Harmless(c, events[i])
    ensures OpenAiFrom(c, false, events, verdict)
            == Before(Contents(c, events[..n]), OpenAiFrom(c, false, events[n..], verdict))
    decreases n
  {
    if n == 0 {
      assert events[..0] == [] && events[0..] == events;
      BeforeBefore([], [], OpenAiFrom(c, false, events, verdict));
    } else {
      var tail := events[1..];
      HarmlessStep(c, events, verdict);
      HarmlessPrefix(c, tail, n - 1, verdict);
      FrontCons(events, n);
      BeforeBefore(Carried(c, events[0]), Contents(c, tail[..n - 1]), OpenAiFrom(c, false, events[n..], verdict));
    }
  }

  lemma {:induction false} UsagePrefix(c: Codec, events: seq<string>, n: nat, verdict: Verdict)
    requires n <= |events| && forall i :: 0 <= i < n ==> Classify(c, events[i]).UsageOnly?
    ensures OpenAiFrom(c, true, events, verdict) == OpenAiFrom(c, true, events[n..], verdict)
    decreases n
  {
    if n == 0 {
      assert events[0..] == events;
    } else {
      UsagePrefix(c, events[1..], n - 1, verdict);
      assert events[1..][n - 1..] == events[n..];
    }
  }

  lemma ContentsSnoc(c: Codec, events: seq<string>, n: nat)
    requires n < |events|
    ensures Contents(c, events[..n + 1])
            == Contents(c, events[..n]) + Carried(c, events[n])
    decreases n
  {
    if n > 0 {
      var tail := events[1..];
      ContentsSnoc(c, tail, n - 1);
      assert events[..n + 1][0] == events[0] && events[..n + 1][1..] == tail[..n];
      assert events[..n][0] == events[0] && events[..n][1..] == tail[..n - 1];
    } else {
      assert events[..1][1..] == [] && events[..0] == [];
    }
  }

  lemma {:induction false} UsageCarriesNothing(c: Codec, events: seq<string>, m: nat, n: nat)
    requires m <= n <= |events| && forall i :: m <= i < n ==> Classify(c, events[i]).UsageOnly?
    ensures Contents(c, events[..n]) == Contents(c, events[..m])
    decreases n
  {
    if m < n {
      ContentsSnoc(c, events, n - 1);
      UsageCarriesNothing(c, events, m, n - 1);
      assert Contents(c, events[..n - 1]) + [] == Contents(c, events[..n - 1]);
    }
  }

  /** Reading up to and including the event with the finish reason. */
  lemma FinishedAt(c: Codec, events: seq<string>, f: nat, verdict: Verdict)
    requires f < |events| && (forall i :: 0 <= i < f ==> Harmless(c, events[i]))
    requires Classify(c, events[f]).Chunk? && Classify(c, events[f]).finish == Finishes
    ensures OpenAiFrom(c, false, events, verdict)
            == Before(Contents(c, events[..f + 1]), OpenAiFrom(c, true, events[f + 1..], verdict))
  {
    HarmlessPrefix(c, events, f, verdict);
    ContentsSnoc(c, events, f);
    assert events[f..][0] == events[f] && events[f..][1..] == events[f + 1..];
    BeforeBefore(Contents(c, events[..f]), Carried(c, events[f]), OpenAiFrom(c, true, events[f + 1..], verdict));
  }

  lemma CompleteResolves(c: Codec, events: seq<string>, verdict: Verdict, f: nat, k: nat)
    requires CompleteAt(c, events, f, k)
    ensures OpenAiFrom(c, false, events, verdict) == Result(Contents(c, events[..k]), Resolved)
  {
    FinishedAt(c, events, f, verdict);
    var rest := events[f + 1..];
    assert DoneAt(c, rest, k - f - 1);
    FinishedResolves(c, rest, verdict);
    UsageCarriesNothing(c, events, f + 1, k);
    BeforeBefore(Contents(c, events[..f + 1]), [], Result([], Resolved));
    assert Contents(c, events[..f + 1]) + [] == Contents(c, events[..f + 1]);
  }

  /** A stream succeeds exactly when it is complete, and then every non-empty content before the
      terminal event has been delivered, in order. What follows [DONE] is irrelevant. */
  lemma OpenAiSucceedsIffComplete(c: Codec, text: string, end: End)
    ensures OpenAiOf(c, text, end).outcome == Resolved
            <==> exists f: nat, k: nat :: CompleteAt(c, EventsOfText(text, end).items, f, k)
    ensures forall f: nat, k: nat :: CompleteAt(c, EventsOfText(text, end).items, f, k) ==>
              OpenAiOf(c, text, end).deltas == Contents(c, EventsOfText(text, end).items[..k])
  {
    var events := EventsOfText(text, end);
    UnfinishedResolves(c, events.items, events.verdict);
    forall f: nat, k: nat | CompleteAt(c, events.items, f, k)
      ensures OpenAiOf(c, text, end) == Result(Contents(c, events.items[..k]), Resolved)
    {
      CompleteResolves(c, events.items, events.verdict, f, k);
    }
  }

  /** What a truncated body is reported as. */
  function Truncated(verdict: Verdict): Outcome {
    Rejected(if verdict == ConnectionError then ConnectionError else ResponseError)
  }

  /** A stream that has not finished fails at the end of the body, at a premature terminator, at a
      malformed event or at an unknown finish reason, after delivering every text up to there; the
      text that comes with the unknown reason is delivered too. */
  lemma OpenAiFailsUnfinished(c: Codec, events: seq<string>, n: nat, verdict: Verdict)
    requires n <= |events| && forall i :: 0 <= i < n ==> Harmless(c, events[i])
    ensures n == |events| ==> OpenAiFrom(c, false, events, verdict) == Result(Contents(c, events), Truncated(verdict))
    ensures n < |events| && (Classify(c, events[n]).Terminator? || Classify(c, events[n]).Malformed?) ==>
              OpenAiFrom(c, false, events, verdict) == Result(Contents(c, events[..n]), Rejected(ResponseError))
    ensures n < |events| && Classify(c, events[n]).Chunk? && Classify(c, events[n]).finish == Unknown ==>
              OpenAiFrom(c, false, events, verdict) == Result(Contents(c, events[..n + 1]), Rejected(ResponseError))
  {
    HarmlessPrefix(c, events, n, verdict);
    assert Contents(c, events[..n]) + [] == Contents(c, events[..n]);
    if n == |events| {
      assert events[..n] == events;
    } else {
      ContentsSnoc(c, events, n);
    }
  }

  /** A stream that has finished fails at the end of the body, at a malformed event and at a further
      choice, and delivers nothing after the finish reason. */
  lemma OpenAiFailsFinished(c: Codec, events: seq<string>, f: nat, n: nat, verdict: Verdict)
    requires f < n <= |events| && (forall i :: 0 <= i < f ==> Harmless(c, events[i]))
    requires Classify(c, events[f]).Chunk? && Classify(c, events[f]).finish == Finishes
    requires forall i :: f < i < n ==> Classify(c, events[i]).UsageOnly?
    ensures n == |events| ==> OpenAiFrom(c, false, events, verdict) == Result(Contents(c, events[..f + 1]), Truncated(verdict))
    ensures n < |events| && (Classify(c, events[n]).Malformed? || Classify(c, events[n]).Chunk?) ==>
              OpenAiFrom(c, false, events, verdict) == Result(Contents(c, events[..f + 1]), Rejected(ResponseError))
  {
    FinishedAt(c, events, f, verdict);
    var rest := events[f + 1..];
    UsagePrefix(c, rest, n - f - 1, verdict);
    assert rest[n - f - 1..] == events[n..];
    assert Contents(c, events[..f + 1]) + [] == Contents(c, events[..f + 1]);
  }

  // --- Ollama ----------------------------------------------------------------------------------------

  datatype Line = Blank | Bad | Piece(content: string, done: bool)

  /** String.prototype.trim leaves nothing. */
  predicate IsBlank(line: string) {
    forall i :: 0 <= i < |line| ==> IsSpace(line[i])
  }

  predicate IsSpace(ch: char) {
    var v := ch as int;
    9 <= v <= 13 || v in {0x20, 0xA0, 0x1680, 0x2028, 0x2029, 0x202F, 0x205F, 0x3000, 0xFEFF} || 0x2000 <= v <= 0x200A
  }

  function ClassifyMessage(message: Option<Json>, done: bool): Line {
    match message
    case None => if done then Piece("", true) else Bad
    case Some(m) =>
      var content, role, tools := Field(m, "content"), Field(m, "role"), Field(m, "tool_calls");
      if !m.Obj? || content.None? || !content.value.Str?
         || (role.Some? && role.value != Str("assistant"))
         || (tools.Some? && tools.value.Arr? && tools.value.items != [])
      then Bad else Piece(content.value.text, done)
  }

  function ClassifyLine(c: Codec, line: string): Line {
    if IsBlank(line) then Blank
    else match c.parse(line)
      case None => Bad
      case Some(data) =>
        var done := Field(data, "done");
        if !data.Obj? || Field(data, "error").Some? || done.None? || !done.value.Bool? then Bad
        else ClassifyMessage(Field(data, "message"), done.value.b)
  }

  function OllamaFrom(c: Codec, lines: seq<string>, verdict: Verdict): Result
    decreases lines
  {
    if lines == [] then Result([], Rejected(if verdict == Exhausted then ResponseError else verdict))
    else match ClassifyLine(c, lines[0])
      case Blank => OllamaFrom(c, lines[1..], verdict)
      case Bad => Result([], Rejected(ResponseError))
      case Piece(content, done) =>
        if done then Result(Deliver(content), Resolved)
        else Before(Deliver(content), OllamaFrom(c, lines[1..], verdict))
  }

  function OllamaOf(c: Codec, text: string, end: End): Result {
    var lines := LinesOf(text, end);
    OllamaFrom(c, lines.items, lines.verdict)
  }

  method OllamaLines(c: Codec, lines: seq<string>, verdict: Verdict) returns (deltas: seq<string>, outcome: Outcome)
    ensures Result(deltas, outcome) == OllamaFrom(c, lines, verdict)
  {
    deltas := [];
    var n := 0;
    ghost var goal := OllamaFrom(c, lines, verdict);
    assert lines[n..] == lines;
    assert goal.deltas == [] + goal.deltas;
    while n < |lines|
      invariant 0 <= n <= |lines|
      invariant goal == Before(deltas, OllamaFrom(c, lines[n..], verdict))
    {
      assert lines[n..][1..] == lines[n + 1..];
      match ClassifyLine(c, lines[n]) {
        case Blank =>
        case Bad =>
          return deltas, Rejected(ResponseError);
        case Piece(content, done) =>
          BeforeTwice(deltas, content, if done then Result([], Resolved) else OllamaFrom(c, lines[n + 1..], verdict));
          if content != "" {
            deltas := deltas + [content];
          }
          if done {
            assert deltas + [] == deltas;
            return deltas, Resolved;
          }
      }
      n := n + 1;
    }
    return deltas, Rejected(if verdict == Exhausted then ResponseError else verdict);
  }

  method OllamaStream(c: Codec, chunks: seq<string>, end: End) returns (deltas: seq<string>, outcome: Outcome)
    ensures Result(deltas, outcome) == OllamaOf(c, Concat(chunks), end)
  {
    var lines, verdict := ReadLines(chunks, end);
    deltas, outcome := OllamaLines(c, lines, verdict);
  }

  function CarriedBy(c: Codec, line: string): seq<string> {
    var l := ClassifyLine(c, line);
    if l.Piece? then Deliver(l.content) else []
  }

  function Pieces(c: Codec, lines: seq<string>): seq<string> {
    if lines == [] then [] else CarriedBy(c, lines[0]) + Pieces(c, lines[1..])
  }

  /** A line after which reading goes on. */
  predicate Continues(c: Codec, line: string) {
    var l := ClassifyLine(c, line);
    l.Blank? || (l.Piece? && !l.done)
  }

  /** The line marked done is the first one so marked, and everything before it was acceptable. */
  predicate MarkedDoneAt(c: Codec, lines: seq<string>, k: nat) {
    && k < |lines| && ClassifyLine(c, lines[k]).Piece? && ClassifyLine(c, lines[k]).done
    && forall i :: 0 <= i < k ==>
         Continues(c, lines[i])
  }

  lemma {:induction false} OllamaResolves(c: Codec, lines: seq<string>, verdict: Verdict)
    ensures OllamaFrom(c, lines, verdict).outcome == Resolved ==> exists k: nat :: MarkedDoneAt(c, lines, k)
    ensures forall k: nat :: MarkedDoneAt(c, lines, k) ==>
              OllamaFrom(c, lines, verdict) == Result(Pieces(c, lines[..k + 1]), Resolved)
    decreases lines
  {
    if lines != [] {
      var l, tail := ClassifyLine(c, lines[0]), lines[1..];
      if l.Piece? && l.done {
        assert MarkedDoneAt(c, lines, 0);
        assert forall k: nat :: MarkedDoneAt(c, lines, k) ==> k == 0;
        assert lines[..1][1..] == [];
        assert Deliver(l.content) + [] == Deliver(l.content);
      } else if !l.Bad? {
        OllamaResolves(c, tail, verdict);
        if OllamaFrom(c, tail, verdict).outcome == Resolved {
          var j: nat :| MarkedDoneAt(c, tail, j);
          assert MarkedDoneAt(c, lines, j + 1);
        }
        forall k: nat | MarkedDoneAt(c, lines, k)
          ensures OllamaFrom(c, lines, verdict) == Result(Pieces(c, lines[..k + 1]), Resolved)
        {
          assert MarkedDoneAt(c, tail, k - 1);
          assert lines[..k + 1][0] == lines[0] && lines[..k + 1][1..] == tail[..k];
        }
      }
    }
  }

  lemma ContinueStep(c: Codec, lines: seq<string>, verdict: Verdict)
    requires lines != [] && Continues(c, lines[0])
    ensures OllamaFrom(c, lines, verdict) == Before(CarriedBy(c, lines[0]), OllamaFrom(c, lines[1..], verdict))
  {
    BeforeBefore([], [], OllamaFrom(c, lines[1..], verdict));
  }

  lemma {:induction false} PiecesPrefix(c: Codec, lines: seq<string>, n: nat, verdict: Verdict)
    requires n <= |lines| && forall i :: 0 <= i < n ==> Continues(c, lines[i])
    ensures OllamaFrom(c, lines, verdict) == Before(Pieces(c, lines[..n]), OllamaFrom(c, lines[n..], verdict))
    decreases n
  {
    if n == 0 {
      assert lines[..0] == [] && lines[0..] == lines;
      BeforeBefore([], [], OllamaFrom(c, lines, verdict));
    } else {
      var tail := lines[1..];
      ContinueStep(c, lines, verdict);
      PiecesPrefix(c, tail, n - 1, verdict);
      FrontCons(lines, n);
      BeforeBefore(CarriedBy(c, lines[0]), Pieces(c, tail[..n - 1]), OllamaFrom(c, lines[n..], verdict));
    }
  }

  /** A stream fails at the end of the body and at the first unacceptable line, after delivering
      every text before it. */
  lemma OllamaFails(c: Codec, lines: seq<string>, n: nat, verdict: Verdict)
    requires n <= |lines|
    requires forall i :: 0 <= i < n ==> Continues(c, lines[i])
    ensures n == |lines| ==> OllamaFrom(c, lines, verdict) == Result(Pieces(c, lines), Truncated(verdict))
    ensures n < |lines| && ClassifyLine(c, lines[n]).Bad? ==>
              OllamaFrom(c, lines, verdict) == Result(Pieces(c, lines[..n]), Rejected(ResponseError))
  {
    PiecesPrefix(c, lines, n, verdict);
    assert Pieces(c, lines[..n]) + [] == Pieces(c, lines[..n]);
    if n == |lines| {
      assert lines[..n] == lines;
    }
  }

  // --- What the Ollama classification means ------------------------------------------------------------

  /** A line with an answer: no error, a done flag, and an assistant's message without tool calls,
      which only the last line may lack. */
  predicate IsPiece(data: Json, content: string, done: bool) {
    && Field(data, "error") == None && Field(data, "done") == Some(Bool(done))
    && (Field(data, "message") == None ==> done && content == "")
    && (Field(data, "message").Some? ==>
          var m := Field(data, "message").value;
          && Field(m, "content") == Some(Str(content)) && AbsentOr(Field(m, "role"), Str("assistant"))
          && (Field(m, "tool_calls").Some? ==>
                Field(m, "tool_calls").value.Arr? ==> Field(m, "tool_calls").value.items == []))
  }

  /** Which lines the adapter takes for what. */
  lemma ClassifyLineMeans(c: Codec, line: string, content: string, done: bool)
    ensures ClassifyLine(c, line) == Blank <==> forall i :: 0 <= i < |line| ==> IsSpace(line[i])
    ensures !IsBlank(line) ==>
              (ClassifyLine(c, line) == Piece(content, done) <==>
                 exists data :: c.parse(line) == Some(data) && IsPiece(data, content, done))
  {
  }

  function MessageJson(content: string): Json {
    Obj([Prop("role", Str("assistant")), Prop("content", Str(content))])
  }

  function LineJson(content: string, done: bool): Json {
    Obj([Prop("message", MessageJson(content)), Prop("done", Bool(done))])
  }

  lemma MessageFields(content: string)
    ensures var j := MessageJson(content);
            && WellFormed(j) && Field(j, "role") == Some(Str("assistant")) && Field(j, "content") == Some(Str(content))
            && Field(j, "tool_calls") == None
  {
    NamesDiffer();
    LookupTwo(Prop("role", Str("assistant")), Prop("content", Str(content)), "role");
    LookupTwo(Prop("role", Str("assistant")), Prop("content", Str(content)), "content");
    LookupTwo(Prop("role", Str("assistant")), Prop("content", Str(content)), "tool_calls");
  }

  lemma LineNamesDiffer()
    ensures "message" != "done" && "message" != "error" && "done" != "error"
  {
    assert |"message"| == 7 && |"done"| == 4 && |"error"| == 5;
  }

  lemma LineIsPiece(content: string, done: bool)
    ensures WellFormed(LineJson(content, done)) && IsPiece(LineJson(content, done), content, done)
  {
    LineNamesDiffer();
    MessageFields(content);
    LookupTwo(Prop("message", MessageJson(content)), Prop("done", Bool(done)), "message");
    LookupTwo(Prop("message", MessageJson(content)), Prop("done", Bool(done)), "done");
    LookupTwo(Prop("message", MessageJson(content)), Prop("done", Bool(done)), "error");
  }

  lemma LineRead(c: Codec, content: string, done: bool)
    requires Faithful(c)
    ensures ClassifyLine(c, Text(LineJson(content, done))) == Piece(content, done)
  {
    var j := LineJson(content, done);
    LineIsPiece(content, done);
    PrintedFits(j);
    assert !IsBlank(Text(j)) by {
      assert !IsSpace(Text(j)[0]);
    }
    ClassifyLineMeans(c, Text(j), content, done);
  }

  function AnswerLines(contents: seq<string>, last: string): seq<string> {
    if contents == [] then [Text(LineJson(last, true))]
    else [Text(LineJson(contents[0], false))] + AnswerLines(contents[1..], last)
  }

  /** The non-empty contents. */
  function NonEmpty(contents: seq<string>, last: string): seq<string> {
    var text := if contents == [] then last else contents[0];
    (if text == "" then [] else [text]) + (if contents == [] then [] else NonEmpty(contents[1..], last))
  }

  lemma {:induction false} AnswerLinesResolve(c: Codec, contents: seq<string>, last: string, verdict: Verdict)
    requires Faithful(c)
    ensures OllamaFrom(c, AnswerLines(contents, last), verdict) == Result(NonEmpty(contents, last), Resolved)
    decreases contents
  {
    if contents == [] {
      LineRead(c, last, true);
    } else {
      LineRead(c, contents[0], false);
      AnswerLinesResolve(c, contents[1..], last, verdict);
    }
  }

  lemma {:induction false} AnswerLinesClean(contents: seq<string>, last: string, i: nat)
    requires i < |AnswerLines(contents, last)|
    ensures Clean(AnswerLines(contents, last)[i])
    decreases contents
  {
    if contents == [] {
      LineIsPiece(last, true);
      PrintedFits(LineJson(last, true));
    } else if i == 0 {
      LineIsPiece(contents[0], false);
      PrintedFits(LineJson(contents[0], false));
    } else {
      AnswerLinesClean(contents[1..], last, i - 1);
    }
  }

  /** Round trip: an answer written as lines of JSON, with any line ends, resolves and delivers
      exactly its non-empty contents in order. */
  lemma OllamaRoundTrip(c: Codec, contents: seq<string>, last: string, crlf: seq<bool>)
    requires Faithful(c) && |crlf| == |AnswerLines(contents, last)|
    requires forall i :: 0 <= i < |AnswerLines(contents, last)| ==> Units(AnswerLines(contents, last)[i]) < MAX_FRAME_SIZE
    ensures OllamaOf(c, Terminated(AnswerLines(contents, last), crlf), Eof) == Result(NonEmpty(contents, last), Resolved)
  {
    var lines := AnswerLines(contents, last);
    forall i | 0 <= i < |lines| ensures Clean(lines[i]) && Units(lines[i]) < MAX_FRAME_SIZE {
      AnswerLinesClean(contents, last, i);
    }
    assert AllFit(lines);
    WrittenLinesRead(lines, crlf, "");
    assert Terminated(lines, crlf) + "" == Terminated(lines, crlf) && lines + [] == lines;
    AnswerLinesResolve(c, contents, last, Exhausted);
  }

  /** A stream succeeds exactly when some line carries the done marker after acceptable lines only,
      and then every non-empty content up to and including that line has been delivered. */
  lemma OllamaSucceedsIffDone(c: Codec, text: string, end: End)
    ensures OllamaOf(c, text, end).outcome == Resolved
            <==> exists k: nat :: MarkedDoneAt(c, LinesOf(text, end).items, k)
    ensures forall k: nat :: MarkedDoneAt(c, LinesOf(text, end).items, k) ==>
              OllamaOf(c, text, end).deltas == Pieces(c, LinesOf(text, end).items[..k + 1])
  {
    var lines := LinesOf(text, end);
    OllamaResolves(c, lines.items, lines.verdict);
  }
}
