/** Server-Sent Events framing on the worker side: `createSSE` builds one
    frame, `parseSSE` reads the fields of one frame back, and
    `isQuotaExceeded` is the quota comparison. */
module Sse {
  import opened Common

  /** What `createSSE` is given as `data`: a string, sent raw, or any other
      value, sent as its JSON encoding. */
  datatype Data<V> = Text(text: string) | Value(value: V)

  /** `typeof data === 'string' ? data : JSON.stringify(data)`. */
  function DataText<V>(d: Data<V>, enc: V -> string): string
  {
    match d
    case Text(t) => t
    case Value(v) => enc(v)
  }

  /** `if (event)`: an absent or empty event name writes no `event:` line. */
  predicate Truthy(event: Option<string>)
  {
    event.Some? && event.value != ""
  }

  /** `createSSE(event, data)`. */
  function CreateSSE<V>(event: Option<string>, d: Data<V>, enc: V -> string): (m: string)
    ensures |m| >= 2 && m[|m| - 2..] == "\n\n"
  {
    var head := if Truthy(event) then "event: " + event.value + "\n" else "";
    head + "data: " + DataText(d, enc) + "\n\n"
  }

  /** When neither the event name nor the data holds a newline, the frame is
      the optional `event:` line, exactly one `data:` line, and the blank line
      that ends it. */
  lemma CreateSSELines<V>(event: Option<string>, d: Data<V>, enc: V -> string)
    requires Truthy(event) ==> '\n' !in event.value
    requires '\n' !in DataText(d, enc)
    ensures Split(CreateSSE(event, d, enc), '\n') ==
      (if Truthy(event) then ["event: " + event.value] else []) + ["data: " + DataText(d, enc), "", ""]
  {
    var text := DataText(d, enc);
    var dataLine := "data: " + text;
    var tail := dataLine + "\n" + "\n";
    assert '\n' !in dataLine by { NoNewlineAfter("data: ", text); }
    FrameTail(dataLine);
    if Truthy(event) {
      var eventLine := "event: " + event.value;
      assert '\n' !in eventLine by { NoNewlineAfter("event: ", event.value); }
      SplitLine(eventLine, tail, '\n');
      FrameShape(eventLine + "\n", text);
    } else {
      FrameShape("", text);
      assert "" + tail == tail;
    }
  }

  lemma NoNewlineAfter(a: string, b: string)
    requires '\n' !in a && '\n' !in b
    ensures '\n' !in a + b
  {
  }

  lemma FrameShape(head: string, text: string)
    ensures head + "data: " + text + "\n\n" == head + (("data: " + text) + "\n" + "\n")
  {
  }

  /** The `data:` line and the blank line that ends a frame. */
  lemma FrameTail(dataLine: string)
    requires '\n' !in dataLine
    ensures Split(dataLine + "\n" + "\n", '\n') == [dataLine, "", ""]
  {
    SplitLine("", "", '\n');
    assert "" + "\n" + "" == "\n";
    SplitLine(dataLine, "\n", '\n');
  }

  /** The fold over lines that fills `result`: a line without `:` is skipped;
      otherwise the text before the first `:` and the text after it are
      trimmed, and the pair is stored when both are non-empty, replacing any
      earlier value of the field. */
  function ParseLine(result: map<string, string>, line: string): map<string, string>
  {
    var colon := IndexOf(line, ':');
    if colon == -1 then result
    else
      var field := Trim(line[..colon]);
      var value := Trim(line[colon + 1..]);
      if field != "" && value != "" then result[field := value] else result
  }

  function ParseLines(result: map<string, string>, lines: seq<string>): map<string, string>
    decreases |lines|
  {
    if |lines| == 0 then result else ParseLines(ParseLine(result, lines[0]), lines[1..])
  }

  /** The fields `parseSSE(message)` returns. */
  function ParseSpec(message: string): map<string, string>
  {
    ParseLines(map[], Split(Trim(message), '\n'))
  }

  /** `parseSSE(message)`. */
  method ParseSSE(message: string) returns (result: map<string, string>)
    ensures result == ParseSpec(message)
  {
    result := map[];
    var lines := Split(Trim(message), '\n');
    var i := 0;
    while i < |lines|
      invariant 0 <= i <= |lines|
      invariant ParseLines(result, lines[i..]) == ParseSpec(message)
    {
      var line := lines[i];
      ParseLinesStep(result, lines, i);
      ghost var before := result;
      var colonIndex := IndexOf(line, ':');
      if colonIndex != -1 {
        var field := Trim(line[..colonIndex]);
        var value := Trim(line[colonIndex + 1..]);
        if field != "" && value != "" {
          result := result[field := value];
        }
      }
      assert result == ParseLine(before, line);
      i := i + 1;
    }
  }

  lemma ParseLinesStep(result: map<string, string>, lines: seq<string>, i: nat)
    requires i < |lines|
    ensures ParseLines(result, lines[i..]) == ParseLines(ParseLine(result, lines[i]), lines[i + 1..])
  {
    assert lines[i..][0] == lines[i];
    assert lines[i..][1..] == lines[i + 1..];
  }

  /** Every stored field comes from some line, and holds a non-empty value;
      a field already present keeps its value unless a later line sets it. */
  lemma {:induction false} ParsedFieldsNonEmpty(result: map<string, string>, lines: seq<string>)
    requires forall f :: f in result ==> f != "" && result[f] != ""
    ensures forall f :: f in ParseLines(result, lines) ==> f != "" && ParseLines(result, lines)[f] != ""
    ensures result.Keys <= ParseLines(result, lines).Keys
    decreases |lines|
  {
    if |lines| > 0 {
      ParsedFieldsNonEmpty(ParseLine(result, lines[0]), lines[1..]);
    }
  }

  /** A repeated field keeps its last value. */
  lemma LastValueWins(field: string, value1: string, value2: string)
    requires field != "" && ':' !in field && NoWhite(field)
    requires value1 != "" && NoWhite(value1) && value2 != "" && NoWhite(value2)
    ensures ParseLines(map[], [field + ":" + value1, field + ":" + value2]) == map[field := value2]
  {
    var lines := [field + ":" + value1, field + ":" + value2];
    FieldLine(map[], field, value1);
    FieldLine(map[field := value1], field, value2);
    assert lines[1..] == [field + ":" + value2];
    assert lines[1..][1..] == [];
    assert ParseLines(map[], lines) == ParseLines(map[field := value1], lines[1..]);
    assert ParseLines(map[field := value1], lines[1..]) == ParseLines(map[field := value1][field := value2], []);
    assert map[field := value1][field := value2] == map[field := value2];
  }

  /** A line `field:value` whose parts need no trimming stores the pair. */
  lemma FieldLine(result: map<string, string>, field: string, value: string)
    requires field != "" && ':' !in field && NoWhite(field)
    requires value != "" && NoWhite(value)
    ensures ParseLine(result, field + ":" + value) == result[field := value]
  {
    var line := field + ":" + value;
    IndexOfIs(line, ':', |field|);
    assert line[..|field|] == field;
    assert line[|field| + 1..] == value;
    TrimNoWhite(field);
    TrimNoWhite(value);
  }

  /** A `field: value` line (one space after the colon, as `createSSE` writes)
      stores the pair when the value needs no trimming. */
  lemma SpacedFieldLine(result: map<string, string>, field: string, value: string)
    requires field != "" && ':' !in field && NoWhite(field)
    requires value != "" && Trim(value) == value
    ensures ParseLine(result, field + ": " + value) == result[field := value]
  {
    var line := field + ": " + value;
    IndexOfIs(line, ':', |field|);
    assert line[..|field|] == field;
    assert line[|field| + 1..] == " " + value;
    TrimNoWhite(field);
    TrimSpace(value);
  }

  /** One leading space is trimmed away from an already trimmed string. */
  lemma TrimSpace(value: string)
    requires Trim(value) == value
    ensures Trim(" " + value) == value
  {
    var s := " " + value;
    TrimStartSpec(s);
    TrimStartSpec(value);
    assert s[1..] == value;
    assert TrimStart(s) == TrimStart(value);
    TrimOfTrimmed(value);
  }

  /** The serialiser and the parser are inverse on what they are meant for:
      one frame built from a non-empty, single-line, already trimmed event
      name and data string parses back to exactly those two fields. */
  lemma RoundTrip<V>(event: Option<string>, data: string, enc: V -> string)
    requires data != "" && '\n' !in data && Trim(data) == data
    requires Truthy(event) ==> '\n' !in event.value && Trim(event.value) == event.value
    ensures ParseSpec(CreateSSE(event, Text(data), enc)) ==
      if Truthy(event) then map["event" := event.value, "data" := data] else map["data" := data]
  {
    if Truthy(event) {
      assert CreateSSE(event, Text(data), enc) == "event: " + event.value + "\n" + ("data: " + data) + "\n\n";
      RoundTripWithEvent(event.value, data);
    } else {
      assert CreateSSE(event, Text(data), enc) == "data: " + data + "\n\n";
      RoundTripDataOnly(data);
    }
  }

  lemma RoundTripWithEvent(event: string, data: string)
    requires data != "" && '\n' !in data && Trim(data) == data
    requires event != "" && '\n' !in event && Trim(event) == event
    ensures ParseSpec("event: " + event + "\n" + ("data: " + data) + "\n\n") == map["event" := event, "data" := data]
  {
    var body := "event: " + event + "\n" + ("data: " + data);
    FrameBodyTrimmed(body, data);
    TwoLines(event, data);
  }

  lemma RoundTripDataOnly(data: string)
    requires data != "" && '\n' !in data && Trim(data) == data
    ensures ParseSpec("data: " + data + "\n\n") == map["data" := data]
  {
    var dataLine := "data: " + data;
    FrameBodyTrimmed(dataLine, data);
    SplitNoSep(dataLine, '\n');
    FieldNames();
    assert dataLine == "data" + ": " + data;
    SpacedFieldLine(map[], "data", data);
    ParseOne(map[], dataLine);
  }

  /** Trimming a frame leaves its lines without the final blank line. */
  lemma FrameBodyTrimmed(body: string, data: string)
    requires data != "" && Trim(data) == data
    requires |body| >= |data| && body[|body| - |data|..] == data
    requires !IsWhite(body[0])
    ensures Trim(body + "\n\n") == body
  {
    TrimEnds(data);
    assert body[|body| - 1] == data[|data| - 1];
    TrimEndWhite(body, "\n\n");
  }

  /** The fields of an `event:` line followed by a `data:` line. */
  lemma TwoLines(event: string, data: string)
    requires event != "" && '\n' !in event && Trim(event) == event
    requires data != "" && '\n' !in data && Trim(data) == data
    ensures ParseLines(map[], Split("event: " + event + "\n" + ("data: " + data), '\n'))
      == map["event" := event, "data" := data]
  {
    TwoLineSplit(event, data);
    ParseEventData(event, data);
  }

  lemma TwoLineSplit(event: string, data: string)
    requires '\n' !in event && '\n' !in data
    ensures Split("event: " + event + "\n" + ("data: " + data), '\n') == ["event: " + event, "data: " + data]
  {
    var eventLine := "event: " + event;
    var dataLine := "data: " + data;
    assert '\n' !in eventLine;
    SplitLine(eventLine, dataLine, '\n');
    SplitNoSep(dataLine, '\n');
  }

  lemma ParseEventData(event: string, data: string)
    requires event != "" && Trim(event) == event
    requires data != "" && Trim(data) == data
    ensures ParseLines(map[], ["event: " + event, "data: " + data]) == map["event" := event, "data" := data]
  {
    ParseTwo(map[], "event: " + event, "data: " + data);
    FieldNames();
    assert "event: " + event == "event" + ": " + event;
    assert "data: " + data == "data" + ": " + data;
    SpacedFieldLine(map[], "event", event);
    SpacedFieldLine(map["event" := event], "data", data);
  }

  lemma FieldNames()
    ensures NoWhite("event") && ':' !in "event"
    ensures NoWhite("data") && ':' !in "data"
  {
  }

  lemma ParseOne(m: map<string, string>, line: string)
    ensures ParseLines(m, [line]) == ParseLine(m, line)
  {
    assert [line][1..] == [];
  }

  lemma ParseTwo(m: map<string, string>, first: string, second: string)
    ensures ParseLines(m, [first, second]) == ParseLine(ParseLine(m, first), second)
  {
    var m1 := ParseLine(m, first);
    assert [first, second][1..] == [second];
    assert ParseLines(m, [first, second]) == ParseLines(m1, [second]);
    ParseOne(m1, second);
  }

  /** `isQuotaExceeded(used, limit)`: reaching the limit counts as exceeding it. */
  function IsQuotaExceeded(used: real, limit: real): (r: bool)
    ensures r <==> used >= limit
    ensures used == limit ==> r
  {
    used >= limit
  }
}
