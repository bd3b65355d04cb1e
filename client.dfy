/** The browser side of the worker connection: `callWorker`'s error path and
    the line dispatcher `createWorkerStream` runs over the response body.
    `fetch` is an oracle answering with a response or a thrown error; the body
    is the list of decoded chunks the reader yields, followed by `done` or by a
    thrown error; `JSON.parse` is an oracle that may reject a text. The
    callbacks are recorded as a list of events, in the order they are called. */
module WorkerClient {
  import opened Common

  const DefaultError := "Worker API request failed"
  const NoReaderError := "No response body reader available"

  /** A thrown error: its `name` and its `message`. */
  datatype Thrown = Thrown(name: string, message: string)

  /** What `fetch` gives: a thrown error, or a response with its `ok` flag, the
      `error` field of its JSON body (when not ok), and whether it has a body. */
  datatype FetchResult<V> =
    | FetchThrew(thrown: Thrown)
    | Response(ok: bool, errorField: Option<string>, json: V, hasBody: bool)

  /** `new Error(error.error || 'Worker API request failed')`. */
  function ErrorMessage(errorField: Option<string>): string
  {
    if errorField.Some? && errorField.value != "" then errorField.value else DefaultError
  }

  /** `callWorker(endpoint, body)`: the parsed JSON of an ok response, or the
      error it rethrows. */
  function CallWorker<V>(r: FetchResult<V>): (res: Result<V>)
    ensures r.FetchThrew? ==> res == Err(r.thrown.message)
    ensures r.Response? && !r.ok ==> res == Err(ErrorMessage(r.errorField))
    ensures r.Response? && r.ok ==> res == Ok(r.json)
  {
    match r
    case FetchThrew(t) => Err(t.message)
    case Response(ok, field, json, _) => if ok then Ok(json) else Err(ErrorMessage(field))
  }

  /** The callbacks the dispatcher calls. */
  datatype ClientEvent<V> = OnMessage(data: V) | OnEnd | OnError(message: string)

  /** How the reader stops: `done`, or a thrown error. */
  datatype ReadEnd = ReadDone | ReadThrew(thrown: Thrown)

  /** The dispatch loop over lines: running with the callbacks made so far, or
      finished at an `event: end` line. */
  datatype Fold<V> = Running(events: seq<ClientEvent<V>>) | Finished(events: seq<ClientEvent<V>>)

  /** One line: `data: <json>` calls `onMessage` when the JSON parses (a parse
      failure is skipped); a line starting `event: end` calls `onEnd` and stops;
      every other line, `event: error` included, is skipped. */
  function LineStep<V>(events: seq<ClientEvent<V>>, line: string, parse: string -> Option<V>): Fold<V>
  {
    if StartsWith(line, "data: ") then
      match parse(line[6..])
      case Some(v) => Running(events + [OnMessage(v)])
      case None => Running(events)
    else if StartsWith(line, "event: end") then Finished(events + [OnEnd])
    else Running(events)
  }

  function Consume<V>(events: seq<ClientEvent<V>>, lines: seq<string>, parse: string -> Option<V>): Fold<V>
    decreases |lines|
  {
    if |lines| == 0 then Running(events)
    else match LineStep(events, lines[0], parse)
      case Finished(es) => Finished(es)
      case Running(es) => Consume(es, lines[1..], parse)
  }

  /** The lines the loop sees: each decoded chunk is split on `'\n'` on its own. */
  function AllLines(pieces: seq<string>): seq<string>
  {
    if |pieces| == 0 then [] else Split(pieces[0], '\n') + AllLines(pieces[1..])
  }

  /** What the reader's end adds when no `event: end` line was seen: `onEnd`
      on `done`; `onError` on a thrown error unless it is an `AbortError`. */
  function EndEvents<V>(end: ReadEnd): seq<ClientEvent<V>>
  {
    match end
    case ReadDone => [OnEnd]
    case ReadThrew(t) => if t.name != "AbortError" then [OnError(t.message)] else []
  }

  /** The callbacks `readStream` makes. */
  function ReadStreamSpec<V>(pieces: seq<string>, end: ReadEnd, parse: string -> Option<V>): seq<ClientEvent<V>>
  {
    match Consume([], AllLines(pieces), parse)
    case Finished(es) => es
    case Running(es) => es + EndEvents(end)
  }

  /** `readStream` as the nested loops of the source. */
  method ReadStream<V>(pieces: seq<string>, end: ReadEnd, parse: string -> Option<V>)
    returns (events: seq<ClientEvent<V>>)
    ensures events == ReadStreamSpec(pieces, end, parse)
  {
    events := [];
    ghost var all := Consume([], AllLines(pieces), parse);
    var i := 0;
    while i < |pieces|
      invariant 0 <= i <= |pieces|
      invariant all == Consume(events, AllLines(pieces[i..]), parse)
    {
      var lines := Split(pieces[i], '\n');
      ghost var later := AllLines(pieces[i + 1..]);
      assert pieces[i..][1..] == pieces[i + 1..];
      assert lines + later == AllLines(pieces[i..]);
      var stop;
      events, stop := DispatchLines(events, lines, later, parse);
      if stop {
        return;
      }
      i := i + 1;
    }
    assert AllLines(pieces[i..]) == [];
    match end {
      case ReadDone => events := events + [OnEnd];
      case ReadThrew(t) =>
        if t.name != "AbortError" {
          events := events + [OnError(t.message)];
        }
    }
  }

  /** The fold takes one line at a time: it stops where the line finishes
      it and otherwise goes on from the callbacks that line made. */
  lemma ConsumeStep<V>(events: seq<ClientEvent<V>>, lines: seq<string>, parse: string -> Option<V>)
    requires |lines| > 0
    ensures LineStep(events, lines[0], parse).Finished? ==>
      Consume(events, lines, parse) == LineStep(events, lines[0], parse)
    ensures LineStep(events, lines[0], parse).Running? ==>
      Consume(events, lines, parse) == Consume(LineStep(events, lines[0], parse).events, lines[1..], parse)
  {
  }

  /** The inner loop of `readStream` over the lines of one decoded chunk;
      `stop` is its `return` at an `event: end` line. */
  method DispatchLines<V>(events0: seq<ClientEvent<V>>, lines: seq<string>, ghost later: seq<string>,
                          parse: string -> Option<V>)
    returns (events: seq<ClientEvent<V>>, stop: bool)
    ensures stop ==> Consume(events0, lines + later, parse) == Finished(events)
    ensures !stop ==> Consume(events0, lines + later, parse) == Consume(events, later, parse)
  {
    events := events0;
    ghost var all := Consume(events0, lines + later, parse);
    assert lines[0..] == lines;
    var j := 0;
    while j < |lines|
      invariant 0 <= j <= |lines|
      invariant all == Consume(events, lines[j..] + later, parse)
    {
      var line := lines[j];
      assert (lines[j..] + later)[0] == line;
      assert (lines[j..] + later)[1..] == lines[j + 1..] + later;
      ConsumeStep(events, lines[j..] + later, parse);
      if StartsWith(line, "data: ") {
        var parsed := parse(line[6..]);
        if parsed.Some? {
          events := events + [OnMessage(parsed.value)];
        }
      } else if StartsWith(line, "event: end") {
        events := events + [OnEnd];
        return events, true;
      } else if StartsWith(line, "event: error") {
        j := j + 1;
        continue;
      }
      j := j + 1;
    }
    assert lines[j..] + later == later;
    stop := false;
  }

  /** `createWorkerStream(endpoint, body, onMessage, onError, onEnd)`. */
  function CreateWorkerStream<V>(r: FetchResult<V>, pieces: seq<string>, end: ReadEnd,
                                 parse: string -> Option<V>): seq<ClientEvent<V>>
  {
    match r
    case FetchThrew(t) => if t.name != "AbortError" then [OnError(t.message)] else []
    case Response(ok, field, _, hasBody) =>
      if !ok then [OnError(ErrorMessage(field))]
      else if !hasBody then [OnError(NoReaderError)]
      else ReadStreamSpec(pieces, end, parse)
  }

  /** A failed response reports exactly one error, with the server's message
      or the default one, and nothing else. */
  lemma FailedResponseOneError<V>(field: Option<string>, json: V, hasBody: bool, pieces: seq<string>,
                                  end: ReadEnd, parse: string -> Option<V>)
    ensures CreateWorkerStream(Response(false, field, json, hasBody), pieces, end, parse) == [OnError(ErrorMessage(field))]
    ensures field.Some? && field.value != "" ==> ErrorMessage(field) == field.value
    ensures field.None? ==> ErrorMessage(field) == DefaultError
  {
  }


  /** Only `onMessage` callbacks come before the last one: a stream makes at
      most one `onEnd` or `onError` call, and it is the final call. */
  lemma AtMostOneTerminal<V>(pieces: seq<string>, end: ReadEnd, parse: string -> Option<V>)
    ensures var es := ReadStreamSpec(pieces, end, parse);
      forall k :: 0 <= k < |es| - 1 ==> es[k].OnMessage?
  {
    ConsumeShape([], AllLines(pieces), parse);
  }

  /** Starting from messages only, the loop keeps only messages while it runs
      and, when it finishes, has added exactly one `onEnd` at the end. */
  lemma {:induction false} ConsumeShape<V>(events: seq<ClientEvent<V>>, lines: seq<string>, parse: string -> Option<V>)
    requires forall k :: 0 <= k < |events| ==> events[k].OnMessage?
    ensures Consume(events, lines, parse).Running? ==>
      forall k :: 0 <= k < |Consume(events, lines, parse).events| ==> Consume(events, lines, parse).events[k].OnMessage?
    ensures Consume(events, lines, parse).Finished? ==>
      var es := Consume(events, lines, parse).events;
      |es| > 0 && es[|es| - 1] == OnEnd && forall k :: 0 <= k < |es| - 1 ==> es[k].OnMessage?
    decreases |lines|
  {
    if |lines| > 0 {
      match LineStep(events, lines[0], parse)
      case Finished(es) =>
      case Running(es) => ConsumeShape(es, lines[1..], parse);
    }
  }

  /** The callbacks made so far are never taken back: the loop only appends. */
  lemma {:induction false} ConsumeExtends<V>(events: seq<ClientEvent<V>>, lines: seq<string>, parse: string -> Option<V>)
    ensures events <= Consume(events, lines, parse).events
    decreases |lines|
  {
    if |lines| > 0 {
      match LineStep(events, lines[0], parse)
      case Finished(es) =>
      case Running(es) => ConsumeExtends(es, lines[1..], parse);
    }
  }

  /** An `event: end` line stops the loop: the lines after it are never looked
      at, and `onEnd` follows whatever the lines before it delivered. */
  lemma {:induction false} EndStopsReading<V>(events: seq<ClientEvent<V>>, before: seq<string>, endLine: string,
                                             after: seq<string>, parse: string -> Option<V>)
    requires StartsWith(endLine, "event: end")
    ensures Consume(events, before + [endLine] + after, parse) ==
      match Consume(events, before, parse)
      case Finished(es) => Finished(es)
      case Running(es) => Finished(es + [OnEnd])
    decreases |before|
  {
    EndLineNotData(endLine);
    if |before| == 0 {
      assert before + [endLine] + after == [endLine] + after;
    } else {
      assert (before + [endLine] + after)[0] == before[0];
      assert (before + [endLine] + after)[1..] == before[1..] + [endLine] + after;
      match LineStep(events, before[0], parse)
      case Finished(es) =>
      case Running(es) => EndStopsReading(es, before[1..], endLine, after, parse);
    }
  }

  lemma EndLineNotData(line: string)
    requires StartsWith(line, "event: end")
    ensures !StartsWith(line, "data: ")
  {
    assert line[0] == 'e';
  }

  /** An `event: error` line is skipped like any other line that is neither
      data nor the end event. */
  lemma ErrorEventSkipped<V>(events: seq<ClientEvent<V>>, rest: seq<string>, parse: string -> Option<V>)
    ensures Consume(events, ["event: error"] + rest, parse) == Consume(events, rest, parse)
  {
    var line := "event: error";
    assert line[..6] != "data: " by { assert line[0] == 'e'; }
    assert line[..10] != "event: end" by { assert line[8] == 'r' && "event: end"[8] == 'n'; }
    assert (["event: error"] + rest)[1..] == rest;
  }

  /** `data: <enc(p)>\n\n` for each payload, in order. */
  function DataFrames<V>(payloads: seq<V>, enc: V -> string): string
  {
    if |payloads| == 0 then "" else "data: " + enc(payloads[0]) + "\n\n" + DataFrames(payloads[1..], enc)
  }

  function Messages<V>(payloads: seq<V>): seq<ClientEvent<V>>
  {
    if |payloads| == 0 then [] else [OnMessage(payloads[0])] + Messages(payloads[1..])
  }

  /** The frames the chat route writes, one `data: <json>\n\n` frame per
      payload and then the `end` event, read in one chunk, reach the client as
      exactly those payloads, in order, followed by one `onEnd`, provided
      `parse` inverts `enc` and the encoding is a single line. */
  lemma {:induction false} FramesRoundTrip<V>(events: seq<ClientEvent<V>>, payloads: seq<V>, enc: V -> string,
                                             parse: string -> Option<V>, endData: string)
    requires forall v :: parse(enc(v)) == Some(v)
    requires forall v :: '\n' !in enc(v)
    ensures Consume(events, Split(DataFrames(payloads, enc) + ("event: end\n" + endData), '\n'), parse)
      == Finished(events + Messages(payloads) + [OnEnd])
    decreases |payloads|
  {
    if |payloads| == 0 {
      NoFrames(events, payloads, enc, parse, endData);
    } else {
      var msg := OnMessage(payloads[0]);
      OneFrame(events, payloads, enc, parse, endData);
      FramesRoundTrip(events + [msg], payloads[1..], enc, parse, endData);
      MessagesCons(events, payloads);
    }
  }

  lemma MessagesCons<V>(events: seq<ClientEvent<V>>, payloads: seq<V>)
    requires |payloads| > 0
    ensures events + [OnMessage(payloads[0])] + Messages(payloads[1..]) + [OnEnd] == events + Messages(payloads) + [OnEnd]
  {
  }

  lemma NoFrames<V>(events: seq<ClientEvent<V>>, payloads: seq<V>, enc: V -> string,
                    parse: string -> Option<V>, endData: string)
    requires |payloads| == 0
    ensures Consume(events, Split(DataFrames(payloads, enc) + ("event: end\n" + endData), '\n'), parse)
      == Finished(events + Messages(payloads) + [OnEnd])
  {
    assert DataFrames(payloads, enc) + ("event: end\n" + endData) == "event: end" + "\n" + endData;
    SplitLine("event: end", endData, '\n');
    EndFirst(events, Split(endData, '\n'), parse);
  }

  /** The first frame delivers its payload and leaves the next frame first. */
  lemma OneFrame<V>(events: seq<ClientEvent<V>>, payloads: seq<V>, enc: V -> string,
                    parse: string -> Option<V>, endData: string)
    requires |payloads| > 0
    requires parse(enc(payloads[0])) == Some(payloads[0]) && '\n' !in enc(payloads[0])
    ensures Consume(events, Split(DataFrames(payloads, enc) + ("event: end\n" + endData), '\n'), parse)
      == Consume(events + [OnMessage(payloads[0])], Split(DataFrames(payloads[1..], enc) + ("event: end\n" + endData), '\n'), parse)
  {
    var tail := "event: end\n" + endData;
    var line := "data: " + enc(payloads[0]);
    var rest := DataFrames(payloads[1..], enc) + tail;
    var msg := OnMessage(payloads[0]);
    FirstFrame(payloads, enc, tail);
    FrameLines(line, rest);
    DataLineParsed(line, enc(payloads[0]));
    DataLineFirst(events, line, payloads[0], [""] + Split(rest, '\n'), parse);
    EmptyLineFirst(events + [msg], Split(rest, '\n'), parse);
    assert [line] + ([""] + Split(rest, '\n')) == [line, ""] + Split(rest, '\n');
  }

  lemma FirstFrame<V>(payloads: seq<V>, enc: V -> string, tail: string)
    requires |payloads| > 0
    ensures DataFrames(payloads, enc) + tail == ("data: " + enc(payloads[0])) + "\n\n" + (DataFrames(payloads[1..], enc) + tail)
  {
  }

  lemma DataLineParsed(line: string, json: string)
    requires line == "data: " + json
    ensures StartsWith(line, "data: ") && line[6..] == json
  {
  }

  lemma FrameLines(line: string, rest: string)
    requires '\n' !in line
    ensures Split(line + "\n\n" + rest, '\n') == [line, ""] + Split(rest, '\n')
  {
    var tail := "\n" + rest;
    calc {
      Split(line + "\n\n" + rest, '\n');
      { assert line + "\n\n" + rest == line + ['\n'] + tail; }
      Split(line + ['\n'] + tail, '\n');
      { SplitLine(line, tail, '\n'); }
      [line] + Split(tail, '\n');
      { SplitLine("", rest, '\n'); assert "" + ['\n'] + rest == tail; }
      [line] + ([""] + Split(rest, '\n'));
    }
  }

  lemma EndFirst<V>(events: seq<ClientEvent<V>>, rest: seq<string>, parse: string -> Option<V>)
    ensures Consume(events, ["event: end"] + rest, parse) == Finished(events + [OnEnd])
  {
    assert "event: end"[..10] == "event: end";
    EndLineNotData("event: end");
  }

  lemma DataLineFirst<V>(events: seq<ClientEvent<V>>, line: string, v: V, rest: seq<string>, parse: string -> Option<V>)
    requires StartsWith(line, "data: ") && parse(line[6..]) == Some(v)
    ensures Consume(events, [line] + rest, parse) == Consume(events + [OnMessage(v)], rest, parse)
  {
    assert ([line] + rest)[1..] == rest;
  }

  lemma EmptyLineFirst<V>(events: seq<ClientEvent<V>>, rest: seq<string>, parse: string -> Option<V>)
    ensures Consume(events, [""] + rest, parse) == Consume(events, rest, parse)
  {
    assert ([""] + rest)[1..] == rest;
  }
}
