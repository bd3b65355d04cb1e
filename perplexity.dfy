/** The Perplexity adapter: the request it sends, its price rule, the error it
    raises on a failed HTTP call, the usage it reports, and the line fold that
    turns the upstream event stream into re-encoded `data:` frames.
    `fetch`, the response body reader and `JSON.parse`/`JSON.stringify` are
    oracles; `trackUsage` is a sink whose calls are returned as a list. */
module Perplexity {
  import opened Common
  import opened Provider

  const Sonar := "sonar"
  const SonarReasoning := "sonar-reasoning"
  const SonarDeepResearch := "sonar-deep-research"
  const DoneMarker := "[DONE]"
  const DataPrefix := "data: "
  const NoReaderError := "Failed to get response reader"

  /** The per-1K-token price table; any other model is priced as `sonar`. */
  function Rate(model: string): real
  {
    if model == SonarReasoning then 0.002
    else if model == SonarDeepResearch then 0.005
    else 0.0015
  }

  /** `PerplexityProvider.calculateCost(model, tokens)`; the instance method
      only delegates to it, so both are this function. */
  function CalculateCost(model: string, tokens: int): (c: real)
    ensures tokens >= 0 ==> c >= 0.0
    ensures tokens == 0 ==> c == 0.0
  {
    (tokens as real / 1000.0) * Rate(model)
  }

  /** The price rule: linear in the tokens at the model's rate, and an unknown
      model costs what `sonar` costs. */
  lemma CostRule(model: string, tokens: int)
    ensures CalculateCost(Sonar, tokens) == tokens as real * 0.0000015
    ensures CalculateCost(SonarReasoning, tokens) == tokens as real * 0.000002
    ensures CalculateCost(SonarDeepResearch, tokens) == tokens as real * 0.000005
    ensures model != Sonar && model != SonarReasoning && model != SonarDeepResearch ==>
      CalculateCost(model, tokens) == CalculateCost(Sonar, tokens)
  {
  }

  lemma CostAdditive(model: string, a: int, b: int)
    ensures CalculateCost(model, a + b) == CalculateCost(model, a) + CalculateCost(model, b)
  {
  }

  /** The fields of the request body that depend on the call. */
  datatype RequestBody = RequestBody(model: string, stream: bool, maxTokens: nat, temperature: real, topP: real)

  /** The body `chat(messages, userId, model, stream)` posts. */
  function ChatRequest(model: string, stream: bool): (b: RequestBody)
    ensures b.model == model && b.stream == stream
    ensures b.maxTokens == 4000 <==> model == SonarDeepResearch
    ensures b.maxTokens == 4000 || b.maxTokens == 2000
    ensures b.temperature == 0.1
  {
    RequestBody(model, stream, if model == SonarDeepResearch then 4000 else 2000, 0.1, 0.9)
  }

  /** `chat`'s default model. */
  function ChatModel(model: Option<string>): string
  {
    match model
    case Some(m) => m
    case None => SonarDeepResearch
  }

  /** One `trackUsage(userId, {...})` call. */
  datatype Tracked = Tracked(userId: string, provider: string, model: string, tokens: int,
                             promptTokens: int, completionTokens: int, cost: real)

  function TrackFor(userId: string, model: string, u: Usage): Tracked
  {
    Tracked(userId, "perplexity", model, u.totalTokens, u.promptTokens, u.completionTokens,
            CalculateCost(model, u.totalTokens))
  }

  /** What `fetch` answers: `ok`, `status`, the body text and, for a JSON
      body, its `usage` field. */
  datatype HttpReply = HttpReply(ok: bool, status: int, text: string, usage: Option<Usage>)

  /** A non-streaming call: what it throws, or the usage calls it makes before
      returning the parsed body. */
  datatype CallResult = Threw(error: string) | Returned(tracked: seq<Tracked>)

  /** The message a non-OK reply throws: the prefix, the status, a space and the body. */
  function ApiError(errorPrefix: string, reply: HttpReply): string
  {
    errorPrefix + IntToString(reply.status) + " " + reply.text
  }

  /** `chat(..., stream = false)` and `research` share this shape; they differ
      in the error prefix and in the model `research` fixes. */
  function JsonCall(errorPrefix: string, userId: string, model: string, reply: HttpReply): (r: CallResult)
    ensures r.Threw? <==> !reply.ok
    ensures r.Threw? ==> r.error == errorPrefix + IntToString(reply.status) + " " + reply.text
    ensures r.Returned? ==> |r.tracked| <= 1 && (|r.tracked| == 1 <==> reply.usage.Some?)
    ensures r.Returned? && reply.usage.Some? ==>
      r.tracked == [Tracked(userId, "perplexity", model, reply.usage.value.totalTokens,
                            reply.usage.value.promptTokens, reply.usage.value.completionTokens,
                            CalculateCost(model, reply.usage.value.totalTokens))]
  {
    if !reply.ok then Threw(ApiError(errorPrefix, reply))
    else if reply.usage.Some? then Returned([TrackFor(userId, model, reply.usage.value)])
    else Returned([])
  }

  function Chat(userId: string, model: string, reply: HttpReply): CallResult
  {
    JsonCall("Perplexity API error: ", userId, model, reply)
  }

  /** `research(query, userId, options)` always asks `sonar-deep-research`. */
  function Research(userId: string, reply: HttpReply): CallResult
  {
    JsonCall("Perplexity research API error: ", userId, SonarDeepResearch, reply)
  }

  /** The research request's option defaults: `maxResults || 10`, `recencyFilter || 'month'`. */
  datatype ResearchBody = ResearchBody(maxTokens: nat, topK: nat, recency: string, domains: seq<string>)

  function ResearchRequest(maxResults: Option<nat>, recency: Option<string>, domains: Option<seq<string>>): (b: ResearchBody)
    ensures b.maxTokens == 4000
    ensures b.topK == (if maxResults.Some? && maxResults.value != 0 then maxResults.value else 10)
    ensures b.recency == (if recency.Some? && recency.value != "" then recency.value else "month")
  {
    ResearchBody(
      4000,
      if maxResults.Some? && maxResults.value != 0 then maxResults.value else 10,
      if recency.Some? && recency.value != "" then recency.value else "month",
      if domains.Some? then domains.value else [])
  }

  /** A parsed stream chunk: its optional `usage`, and the rest of the object. */
  datatype StreamData = StreamData(usage: Option<Usage>, rest: string)

  /** The three mutable counters of `handleStreamResponse`. */
  datatype Counters = Counters(total: int, prompt: int, completion: int)

  /** The frames enqueued so far and the counters. */
  datatype FoldState = FoldState(out: seq<string>, counters: Counters)

  const Start := FoldState([], Counters(0, 0, 0))

  /** The outcome of one line: keep reading, or stop at `[DONE]`. */
  datatype LineResult = Continue(state: FoldState) | Stop(state: FoldState)

  /** `data: <json>\n\n` with the re-encoded object. */
  function Frame(enc: StreamData -> string, d: StreamData): string
  {
    DataPrefix + enc(d) + "\n\n"
  }

  predicate IsDataLine(line: string)
  {
    StartsWith(line, DataPrefix)
  }

  predicate IsDoneLine(line: string)
  {
    IsDataLine(line) && Trim(line[6..]) == DoneMarker
  }

  /** The body of the inner `for (const line of lines)` loop. */
  function LineStep(st: FoldState, line: string, parse: string -> Option<StreamData>, enc: StreamData -> string): LineResult
  {
    if !IsDataLine(line) then Continue(st)
    else if IsDoneLine(line) then Stop(st)
    else match parse(line[6..])
      case None => Continue(st)
      case Some(d) =>
        var c := if d.usage.Some? then Counters(d.usage.value.totalTokens, d.usage.value.promptTokens, d.usage.value.completionTokens)
                 else st.counters;
        Continue(FoldState(st.out + [Frame(enc, d)], c))
  }

  /** The fold over lines either runs out of lines or stops at `[DONE]`. */
  datatype FoldEnd = Running(state: FoldState) | Finished(state: FoldState)

  function Consume(st: FoldState, lines: seq<string>, parse: string -> Option<StreamData>, enc: StreamData -> string): FoldEnd
    decreases |lines|
  {
    if |lines| == 0 then Running(st)
    else match LineStep(st, lines[0], parse, enc)
      case Stop(s) => Finished(s)
      case Continue(s) => Consume(s, lines[1..], parse, enc)
  }

  /** The lines the loop sees: each read is decoded and split on `'\n'` on its
      own, so a line cut by a read boundary is seen as two lines. */
  function AllLines(pieces: seq<string>): seq<string>
  {
    if |pieces| == 0 then [] else Split(pieces[0], '\n') + AllLines(pieces[1..])
  }

  /** How the returned `ReadableStream` ends: closed after `[DONE]`, errored
      when a read throws, or left open when the body ends without `[DONE]`. */
  datatype StreamEnd = Closed | LeftOpen | Errored(error: string)

  datatype StreamOutcome = StreamOutcome(enqueued: seq<string>, tracked: seq<Tracked>, end: StreamEnd)

  /** The usage call made at `[DONE]`: only when tokens were reported. */
  function DoneTracking(userId: string, model: string, c: Counters): seq<Tracked>
  {
    if c.total > 0 then
      [Tracked(userId, "perplexity", model, c.total, c.prompt, c.completion, CalculateCost(model, c.total))]
    else []
  }

  /** The whole stream: `pieces` are the decoded chunks the reader yields, then
      it either reports `done` or throws `readError`. */
  function StreamResult(pieces: seq<string>, readError: Option<string>, userId: string, model: string,
                        parse: string -> Option<StreamData>, enc: StreamData -> string): StreamOutcome
  {
    match Consume(Start, AllLines(pieces), parse, enc)
    case Finished(s) => StreamOutcome(s.out, DoneTracking(userId, model, s.counters), Closed)
    case Running(s) => StreamOutcome(s.out, [], if readError.Some? then Errored(readError.value) else LeftOpen)
  }

  /** `handleStreamResponse`, run to the end of the produced stream. */
  method HandleStreamResponse(pieces: seq<string>, readError: Option<string>, userId: string, model: string,
                              parse: string -> Option<StreamData>, enc: StreamData -> string)
    returns (outcome: StreamOutcome)
    ensures outcome == StreamResult(pieces, readError, userId, model, parse, enc)
  {
    var totalTokens, promptTokens, completionTokens := 0, 0, 0;
    var out: seq<string> := [];
    ghost var all := Consume(Start, AllLines(pieces), parse, enc);
    var i := 0;
    while i < |pieces|
      invariant 0 <= i <= |pieces|
      invariant all == Consume(FoldState(out, Counters(totalTokens, promptTokens, completionTokens)), AllLines(pieces[i..]), parse, enc)
    {
      var lines := Split(pieces[i], '\n');
      ghost var later := AllLines(pieces[i + 1..]);
      assert pieces[i..][1..] == pieces[i + 1..];
      assert lines[0..] + later == AllLines(pieces[i..]);
      var j := 0;
      while j < |lines|
        invariant 0 <= j <= |lines|
        invariant all == Consume(FoldState(out, Counters(totalTokens, promptTokens, completionTokens)), lines[j..] + later, parse, enc)
      {
        var line := lines[j];
        ghost var st := FoldState(out, Counters(totalTokens, promptTokens, completionTokens));
        assert (lines[j..] + later)[0] == line;
        assert (lines[j..] + later)[1..] == lines[j + 1..] + later;
        if StartsWith(line, DataPrefix) {
          var jsonStr := line[6..];
          if Trim(jsonStr) == DoneMarker {
            var tracked: seq<Tracked> := [];
            if totalTokens > 0 {
              tracked := [Tracked(userId, "perplexity", model, totalTokens, promptTokens, completionTokens,
                                  CalculateCost(model, totalTokens))];
            }
            outcome := StreamOutcome(out, tracked, Closed);
            return;
          }
          var parsed := parse(jsonStr);
          if parsed.Some? {
            var data := parsed.value;
            if data.usage.Some? {
              totalTokens := data.usage.value.totalTokens;
              promptTokens := data.usage.value.promptTokens;
              completionTokens := data.usage.value.completionTokens;
            }
            out := out + [DataPrefix + enc(data) + "\n\n"];
          }
        }
        j := j + 1;
      }
      assert lines[j..] + later == later;
      i := i + 1;
    }
    assert AllLines(pieces[i..]) == [];
    outcome := StreamOutcome(out, [], if readError.Some? then Errored(readError.value) else LeftOpen);
  }

  /** `chat(..., stream = true)`: a non-OK reply throws the same API error as
      the non-streaming call, and a response without a body throws before any
      stream exists; otherwise the stream's outcome. */
  function StreamingChat(reply: HttpReply, hasBody: bool, pieces: seq<string>, readError: Option<string>,
                         userId: string, model: string,
                         parse: string -> Option<StreamData>, enc: StreamData -> string): (r: Result<StreamOutcome>)
    ensures r.Err? <==> !reply.ok || !hasBody
    ensures !reply.ok ==> r.error == "Perplexity API error: " + IntToString(reply.status) + " " + reply.text
    ensures reply.ok && !hasBody ==> r.error == NoReaderError
    ensures r.Ok? ==> r.value.tracked == [] || r.value.end == Closed
  {
    if !reply.ok then Err(ApiError("Perplexity API error: ", reply))
    else if !hasBody then Err(NoReaderError)
    else Ok(StreamResult(pieces, readError, userId, model, parse, enc))
  }

  /** Streaming or not, `chat` rejects a non-OK reply with the same message
      before reading any body, and tracks nothing. */
  lemma StreamRejectsLikeJson(reply: HttpReply, hasBody: bool, pieces: seq<string>, readError: Option<string>,
                              userId: string, model: string,
                              parse: string -> Option<StreamData>, enc: StreamData -> string)
    requires !reply.ok
    ensures Chat(userId, model, reply).Threw?
    ensures StreamingChat(reply, hasBody, pieces, readError, userId, model, parse, enc)
         == Err(Chat(userId, model, reply).error)
  {
  }

  /** Running the fold over two pieces is running it over the first and, if it
      did not stop there, continuing with the second from where it left off. */
  lemma {:induction false} ConsumeAppend(st: FoldState, a: seq<string>, b: seq<string>,
                                        parse: string -> Option<StreamData>, enc: StreamData -> string)
    ensures Consume(st, a + b, parse, enc) ==
      match Consume(st, a, parse, enc)
      case Finished(s) => Finished(s)
      case Running(s) => Consume(s, b, parse, enc)
    decreases |a|
  {
    if |a| == 0 {
      assert a + b == b;
    } else {
      assert (a + b)[0] == a[0];
      assert (a + b)[1..] == a[1..] + b;
      match LineStep(st, a[0], parse, enc)
      case Stop(s) =>
      case Continue(s) => ConsumeAppend(s, a[1..], b, parse, enc);
    }
  }

  /** A line that does not start with `data: ` changes nothing. */
  lemma OtherLinesIgnored(st: FoldState, line: string, parse: string -> Option<StreamData>, enc: StreamData -> string)
    requires !StartsWith(line, DataPrefix)
    ensures LineStep(st, line, parse, enc) == Continue(st)
  {
  }

  /** A `data:` line that is not `[DONE]` and does not parse is skipped; one that
      parses appends its frame and, when it has usage, overwrites all three
      counters with it. */
  lemma DataLineStep(st: FoldState, line: string, parse: string -> Option<StreamData>, enc: StreamData -> string)
    requires IsDataLine(line) && !IsDoneLine(line)
    ensures parse(line[6..]).None? ==> LineStep(st, line, parse, enc) == Continue(st)
    ensures parse(line[6..]).Some? ==>
      var d := parse(line[6..]).value;
      var r := LineStep(st, line, parse, enc);
      && r.Continue?
      && r.state.out == st.out + [Frame(enc, d)]
      && (d.usage.Some? ==>
            r.state.counters == Counters(d.usage.value.totalTokens, d.usage.value.promptTokens, d.usage.value.completionTokens))
      && (d.usage.None? ==> r.state.counters == st.counters)
  {
  }

  /** Frames are only ever appended: the output of a prefix of the lines is a
      prefix of the output of all of them. */
  lemma {:induction false} FramesOnlyAppended(st: FoldState, lines: seq<string>,
                                             parse: string -> Option<StreamData>, enc: StreamData -> string)
    ensures |st.out| <= |Consume(st, lines, parse, enc).state.out|
    ensures Consume(st, lines, parse, enc).state.out[..|st.out|] == st.out
    decreases |lines|
  {
    if |lines| > 0 {
      match LineStep(st, lines[0], parse, enc)
      case Stop(s) =>
      case Continue(s) =>
        FramesOnlyAppended(s, lines[1..], parse, enc);
        assert s.out[..|st.out|] == st.out;
    }
  }

  /** Nothing after a `[DONE]` line is looked at: the fold over
      `before + [done] + after` is the fold over `before + [done]`. */
  lemma DoneStopsTheStream(st: FoldState, before: seq<string>, done: string, after: seq<string>,
                           parse: string -> Option<StreamData>, enc: StreamData -> string)
    requires IsDoneLine(done)
    ensures Consume(st, before + [done] + after, parse, enc) == Consume(st, before + [done], parse, enc)
    ensures Consume(st, before + [done], parse, enc).Finished?
  {
    ConsumeAppend(st, before, [done] + after, parse, enc);
    ConsumeAppend(st, before, [done], parse, enc);
    assert before + [done] + after == before + ([done] + after);
    assert ([done] + after)[0] == done;
  }

  /** Usage is reported at most once, only when the stream closed at `[DONE]`
      and a chunk had reported a positive total, and then against the caller's
      user, as `perplexity`, with the model and the last reported counters. */
  lemma TrackedOnceAtDone(pieces: seq<string>, readError: Option<string>, userId: string, model: string,
                          parse: string -> Option<StreamData>, enc: StreamData -> string)
    ensures var r := StreamResult(pieces, readError, userId, model, parse, enc);
      && |r.tracked| <= 1
      && (|r.tracked| == 1 <==> r.end == Closed && Consume(Start, AllLines(pieces), parse, enc).state.counters.total > 0)
      && (|r.tracked| == 1 ==>
            var c := Consume(Start, AllLines(pieces), parse, enc).state.counters;
            r.tracked[0] == Tracked(userId, "perplexity", model, c.total, c.prompt, c.completion,
                                    CalculateCost(model, c.total)))
  {
  }

  /** A body that ends without `[DONE]` leaves the stream neither closed nor
      errored, and no usage is reported. */
  lemma NoDoneLeavesOpen(pieces: seq<string>, userId: string, model: string,
                         parse: string -> Option<StreamData>, enc: StreamData -> string)
    requires forall k :: 0 <= k < |AllLines(pieces)| ==> !IsDoneLine(AllLines(pieces)[k])
    ensures StreamResult(pieces, None, userId, model, parse, enc).end == LeftOpen
    ensures StreamResult(pieces, None, userId, model, parse, enc).tracked == []
  {
    NoDoneRuns(Start, AllLines(pieces), parse, enc);
  }

  lemma {:induction false} NoDoneRuns(st: FoldState, lines: seq<string>, parse: string -> Option<StreamData>, enc: StreamData -> string)
    requires forall k :: 0 <= k < |lines| ==> !IsDoneLine(lines[k])
    ensures Consume(st, lines, parse, enc).Running?
    decreases |lines|
  {
    if |lines| > 0 {
      assert !IsDoneLine(lines[0]);
      var s := LineStep(st, lines[0], parse, enc).state;
      assert forall k :: 0 <= k < |lines[1..]| ==> !IsDoneLine(lines[1..][k]) by {
        forall k | 0 <= k < |lines[1..]| ensures !IsDoneLine(lines[1..][k]) {
          assert lines[1..][k] == lines[k + 1];
        }
      }
      NoDoneRuns(s, lines[1..], parse, enc);
    }
  }
}
