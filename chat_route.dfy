/** The worker's `POST /chat/stream` handler: request validation, provider
    selection, forwarding the provider's chunks as SSE frames, the `end` or
    `error` event, and the usage log. The retrieval-augmented variant of the
    route reuses everything here and only changes what is sent to the provider
    and how chunks are decorated.

    The selected provider's `streamChat` is an oracle: given the model and the
    messages it delivers a list of chunks and then either resolves or rejects
    with a message. The response stream is the list of strings written to it;
    `JSON.stringify` is the encoder `enc`; the elapsed time is a parameter. */
module ChatRoute {
  import opened Common
  import opened Schema
  import opened Provider
  import opened Metering
  import OpenAI
  import Anthropic

  const MessagesRequired := "Messages are required"
  const UserIdRequired := "User ID is required"
  const SessionIdRequired := "Session ID is required"
  const EndFrame := "event: end\ndata: {}\n\n"

  /** The fields of the JSON body. `messages` is `None` when it is missing or
      not an array; `provider` is `None` when it is missing. */
  datatype ChatRequest = ChatRequest(messages: Option<seq<Message>>, userId: Option<string>,
                                     sessionId: Option<string>, provider: Option<string>)

  /** A string field is truthy when present and non-empty. */
  predicate Truthy(s: Option<string>)
  {
    s.Some? && s.value != ""
  }

  /** The 400 checks, in the order the handler makes them. */
  function Validate(req: ChatRequest): (err: Option<string>)
    ensures (req.messages.None? || |req.messages.value| == 0) ==> err == Some(MessagesRequired)
    ensures (req.messages.Some? && |req.messages.value| > 0 && !Truthy(req.userId)) ==> err == Some(UserIdRequired)
    ensures (req.messages.Some? && |req.messages.value| > 0 && Truthy(req.userId) && !Truthy(req.sessionId))
            ==> err == Some(SessionIdRequired)
    ensures err.None? <==> req.messages.Some? && |req.messages.value| > 0 && Truthy(req.userId) && Truthy(req.sessionId)
  {
    if req.messages.None? || |req.messages.value| == 0 then Some(MessagesRequired)
    else if !Truthy(req.userId) then Some(UserIdRequired)
    else if !Truthy(req.sessionId) then Some(SessionIdRequired)
    else None
  }

  /** `provider = 'openai'`: the default applies only to a missing field. */
  function ProviderName(req: ChatRequest): string
  {
    match req.provider
    case None => "openai"
    case Some(p) => p
  }

  /** The `switch (provider)`: `anthropic` selects Anthropic, anything else
      OpenAI; the result is the `model` of the provider constructed with no
      argument. */
  function ModelFor(providerName: string): (m: string)
    ensures providerName == "anthropic" ==> m == Anthropic.DefaultModel
    ensures providerName != "anthropic" ==> m == OpenAI.DefaultModel
  {
    if providerName == "anthropic" then Anthropic.NewProvider(None).model else OpenAI.NewProvider(None).model
  }

  /** One citation attached to a chunk by the retrieval-augmented route. */
  datatype Citation = Citation(kind: string, id: string, title: string, page: int)

  /** What is serialised for each chunk: the provider's chunk, and the
      citations the route may have attached to it. */
  datatype OutChunk = OutChunk(chunk: StreamChunk, citations: Option<seq<Citation>>)

  /** What the provider's `streamChat` did: the chunks it delivered, and the
      message it rejected with, if it did. */
  datatype ProviderRun = ProviderRun(chunks: seq<StreamChunk>, failure: Option<string>)

  /** `data: <json>\n\n` for each chunk, in order. */
  function Frames(chunks: seq<StreamChunk>, decorate: StreamChunk -> OutChunk, enc: OutChunk -> string): (r: seq<string>)
    ensures |r| == |chunks|
    decreases |chunks|
  {
    if |chunks| == 0 then []
    else Frames(chunks[..|chunks| - 1], decorate, enc) + ["data: " + enc(decorate(chunks[|chunks| - 1])) + "\n\n"]
  }

  /** The three token counters. */
  datatype Counters = Counters(prompt: int, completion: int, total: int)

  function CountersOf(u: Usage): Counters
  {
    Counters(u.promptTokens, u.completionTokens, u.totalTokens)
  }

  /** The counters after the callback ran on every chunk: each chunk with
      usage overwrites all three, starting from zeros. */
  function LastCounters(chunks: seq<StreamChunk>): Counters
    decreases |chunks|
  {
    if |chunks| == 0 then Counters(0, 0, 0)
    else if chunks[|chunks| - 1].usage.Some? then CountersOf(chunks[|chunks| - 1].usage.value)
    else LastCounters(chunks[..|chunks| - 1])
  }

  /** The reply: a 400 with its message, or an event stream with the messages
      sent to the provider, the model used, the writes in order, and the usage
      handed to `logUsage` (none when the provider failed). */
  datatype ChatReply =
    | BadRequest(error: string)
    | Streamed(sent: seq<Message>, model: string, writes: seq<string>, logged: Option<UsageData>)

  /** The `try` block from the provider call on, and the `catch`. */
  function StreamSpec(userId: string, sessionId: string, providerName: string, sent: seq<Message>,
                      run: ProviderRun, decorate: StreamChunk -> OutChunk, enc: OutChunk -> string,
                      encError: string -> string, ms: int): (r: ChatReply)
    ensures r.Streamed? && r.sent == sent && r.model == ModelFor(providerName)
  {
    var frames := Frames(run.chunks, decorate, enc);
    var model := ModelFor(providerName);
    match run.failure
    case None =>
      var c := LastCounters(run.chunks);
      Streamed(sent, model, frames + [EndFrame],
               Some(UsageData(userId, providerName, model, c.prompt, c.completion, c.total, ms, Some(sessionId))))
    case Some(message) =>
      Streamed(sent, model, frames + ["event: error\ndata: " + encError(message) + "\n\n"], None)
  }

  /** The forwarding and logging steps as the handler performs them: the
      callback writes one frame per chunk and overwrites the counters, then the
      `end` event is written and the usage logged; a rejected provider call
      writes one `error` event instead and logs nothing. */
  method RunStream(db: Database, userId: string, sessionId: string, providerName: string, sent: seq<Message>,
                   run: ProviderRun, decorate: StreamChunk -> OutChunk, enc: OutChunk -> string,
                   encError: string -> string, ms: int, timestamp: int, fault: Option<string>)
    returns (reply: ChatReply)
    requires db.Valid()
    modifies db
    ensures reply == StreamSpec(userId, sessionId, providerName, sent, run, decorate, enc, encError, ms)
    ensures db.Valid()
    ensures db.usageLogs == old(db.usageLogs) + LoggedRows(reply, timestamp, fault)
    ensures db.documents == old(db.documents) && db.chunks == old(db.chunks) && db.quotas == old(db.quotas)
  {
    var model := ModelFor(providerName);
    var writes: seq<string> := [];
    var promptTokens, completionTokens, totalTokens := 0, 0, 0;
    var i := 0;
    while i < |run.chunks|
      invariant 0 <= i <= |run.chunks|
      invariant writes == Frames(run.chunks[..i], decorate, enc)
      invariant Counters(promptTokens, completionTokens, totalTokens) == LastCounters(run.chunks[..i])
    {
      var chunk := run.chunks[i];
      assert run.chunks[..i + 1][..i] == run.chunks[..i];
      writes := writes + ["data: " + enc(decorate(chunk)) + "\n\n"];
      if chunk.usage.Some? {
        promptTokens := chunk.usage.value.promptTokens;
        completionTokens := chunk.usage.value.completionTokens;
        totalTokens := chunk.usage.value.totalTokens;
      }
      i := i + 1;
    }
    assert run.chunks[..i] == run.chunks;
    if run.failure.None? {
      writes := writes + [EndFrame];
      var u := UsageData(userId, providerName, model, promptTokens, completionTokens, totalTokens, ms, Some(sessionId));
      LogUsage(db, u, timestamp, fault);
      reply := Streamed(sent, model, writes, Some(u));
    } else {
      writes := writes + ["event: error\ndata: " + encError(run.failure.value) + "\n\n"];
      reply := Streamed(sent, model, writes, None);
    }
  }

  /** The usage rows a reply adds: one when usage was handed to `logUsage` and
      the insert did not fail. */
  function LoggedRows(reply: ChatReply, timestamp: int, fault: Option<string>): seq<UsageRow>
  {
    if reply.Streamed? && reply.logged.Some? && fault.None? then [UsageRowOf(reply.logged.value, timestamp)] else []
  }

  /** The handler of `worker/routes/chat.ts` as a specification: the messages
      go to the provider as they came, chunks are forwarded undecorated. */
  function ChatSpec(req: ChatRequest, streamChat: (string, seq<Message>) -> ProviderRun, enc: OutChunk -> string,
                    encError: string -> string, ms: int): ChatReply
  {
    match Validate(req)
    case Some(e) => BadRequest(e)
    case None =>
      var name := ProviderName(req);
      var sent := req.messages.value;
      StreamSpec(req.userId.value, req.sessionId.value, name, sent, streamChat(ModelFor(name), sent),
                 Plain, enc, encError, ms)
  }

  function Plain(c: StreamChunk): OutChunk
  {
    OutChunk(c, None)
  }

  /** `POST /chat/stream` of `worker/routes/chat.ts`. */
  method HandleChat(db: Database, req: ChatRequest, streamChat: (string, seq<Message>) -> ProviderRun,
                    enc: OutChunk -> string, encError: string -> string, ms: int, timestamp: int,
                    fault: Option<string>)
    returns (reply: ChatReply)
    requires db.Valid()
    modifies db
    ensures reply == ChatSpec(req, streamChat, enc, encError, ms)
    ensures db.Valid()
    ensures db.usageLogs == old(db.usageLogs) + LoggedRows(reply, timestamp, fault)
    ensures db.documents == old(db.documents) && db.chunks == old(db.chunks) && db.quotas == old(db.quotas)
  {
    var err := Validate(req);
    if err.Some? {
      return BadRequest(err.value);
    }
    var name := ProviderName(req);
    var sent := req.messages.value;
    reply := RunStream(db, req.userId.value, req.sessionId.value, name, sent, streamChat(ModelFor(name), sent),
                       Plain, enc, encError, ms, timestamp, fault);
  }

  /** A rejected request writes nothing and logs nothing. */
  lemma BadRequestLogsNothing(req: ChatRequest, streamChat: (string, seq<Message>) -> ProviderRun,
                              enc: OutChunk -> string, encError: string -> string, ms: int, timestamp: int,
                              fault: Option<string>)
    requires Validate(req).Some?
    ensures ChatSpec(req, streamChat, enc, encError, ms) == BadRequest(Validate(req).value)
    ensures LoggedRows(ChatSpec(req, streamChat, enc, encError, ms), timestamp, fault) == []
  {
  }

  /** On success the stream is one data frame per chunk, in order, and then
      exactly one `end` event as the last write; the usage carries the
      counters of the last usage-bearing chunk, under the request's provider
      string and the selected model. */
  lemma {:induction false} SuccessShape(userId: string, sessionId: string, providerName: string, sent: seq<Message>,
                                        run: ProviderRun, decorate: StreamChunk -> OutChunk, enc: OutChunk -> string,
                                        encError: string -> string, ms: int)
    requires run.failure.None?
    ensures var r := StreamSpec(userId, sessionId, providerName, sent, run, decorate, enc, encError, ms);
      && |r.writes| == |run.chunks| + 1
      && r.writes[|run.chunks|] == EndFrame
      && (forall k :: 0 <= k < |run.chunks| ==> r.writes[k] == "data: " + enc(decorate(run.chunks[k])) + "\n\n")
      && (forall k :: 0 <= k < |run.chunks| ==> r.writes[k] != EndFrame)
      && r.logged == Some(UsageData(userId, providerName, ModelFor(providerName), LastCounters(run.chunks).prompt,
                                    LastCounters(run.chunks).completion, LastCounters(run.chunks).total, ms,
                                    Some(sessionId)))
  {
    FramesAt(run.chunks, decorate, enc);
    forall k | 0 <= k < |run.chunks|
      ensures Frames(run.chunks, decorate, enc)[k] != EndFrame
    {
      assert Frames(run.chunks, decorate, enc)[k][0] == 'd';
    }
  }

  /** On a provider failure the chunks delivered before it are still
      forwarded, followed by exactly one `error` event carrying the message,
      and nothing is logged. */
  lemma {:induction false} FailureShape(userId: string, sessionId: string, providerName: string, sent: seq<Message>,
                                        run: ProviderRun, decorate: StreamChunk -> OutChunk, enc: OutChunk -> string,
                                        encError: string -> string, ms: int)
    requires run.failure.Some?
    ensures var r := StreamSpec(userId, sessionId, providerName, sent, run, decorate, enc, encError, ms);
      && |r.writes| == |run.chunks| + 1
      && r.writes[|run.chunks|] == "event: error\ndata: " + encError(run.failure.value) + "\n\n"
      && (forall k :: 0 <= k < |run.chunks| ==> r.writes[k] == "data: " + enc(decorate(run.chunks[k])) + "\n\n")
      && (forall k :: 0 <= k <= |run.chunks| ==> r.writes[k] != EndFrame)
      && r.logged.None?
  {
    FramesAt(run.chunks, decorate, enc);
    var r := StreamSpec(userId, sessionId, providerName, sent, run, decorate, enc, encError, ms);
    forall k | 0 <= k <= |run.chunks|
      ensures r.writes[k] != EndFrame
    {
      if k < |run.chunks| {
        assert r.writes[k][0] == 'd';
      } else {
        assert r.writes[k][7] == 'e' && EndFrame[7] == 'e';
        assert r.writes[k][8] == 'r' && EndFrame[8] == 'n';
      }
    }
  }

  /** The k-th frame is the k-th chunk's `data:` frame. */
  lemma {:induction false} FramesAt(chunks: seq<StreamChunk>, decorate: StreamChunk -> OutChunk, enc: OutChunk -> string)
    ensures forall k :: 0 <= k < |chunks| ==> Frames(chunks, decorate, enc)[k] == "data: " + enc(decorate(chunks[k])) + "\n\n"
    decreases |chunks|
  {
    if |chunks| > 0 {
      var init := chunks[..|chunks| - 1];
      FramesAt(init, decorate, enc);
      assert forall k :: 0 <= k < |init| ==> init[k] == chunks[k];
    }
  }

  /** With no usage-bearing chunk the counters stay zero. */
  lemma {:induction false} NoUsageZero(chunks: seq<StreamChunk>)
    requires forall k :: 0 <= k < |chunks| ==> chunks[k].usage.None?
    ensures LastCounters(chunks) == Counters(0, 0, 0)
    decreases |chunks|
  {
    if |chunks| > 0 {
      var init := chunks[..|chunks| - 1];
      assert forall k :: 0 <= k < |init| ==> init[k] == chunks[k];
      NoUsageZero(init);
    }
  }

  /** The counters are those of the last chunk that carries usage. */
  lemma {:induction false} LastUsageWins(chunks: seq<StreamChunk>, k: nat)
    requires k < |chunks| && chunks[k].usage.Some?
    requires forall j :: k < j < |chunks| ==> chunks[j].usage.None?
    ensures LastCounters(chunks) == CountersOf(chunks[k].usage.value)
    decreases |chunks|
  {
    if k < |chunks| - 1 {
      var init := chunks[..|chunks| - 1];
      assert forall j :: 0 <= j < |init| ==> init[j] == chunks[j];
      LastUsageWins(init, k);
    }
  }

  /** A provider run that completes, as both provider adapters produce it,
      ends with the chunk carrying the token usage, so that usage is what the
      route logs. */
  lemma ProviderUsageIsLogged(emitted: seq<StreamChunk>, deltas: seq<string>, usage: Usage)
    requires EmitsFinal(emitted, deltas, usage)
    ensures LastCounters(emitted) == CountersOf(usage)
  {
  }

  /** Provider selection: a missing provider means OpenAI; `anthropic` picks
      Anthropic's model; any other string, even one naming another vendor,
      uses OpenAI's model but is logged under the string it was given. */
  lemma ProviderSelection(userId: string, sessionId: string, sent: seq<Message>, run: ProviderRun,
                          enc: OutChunk -> string, encError: string -> string, ms: int)
    requires run.failure.None?
    ensures ProviderName(ChatRequest(None, None, None, None)) == "openai"
    ensures ModelFor("anthropic") == "claude-3-5-sonnet-20240620"
    ensures ModelFor("openai") == "gpt-4o" && ModelFor("perplexity") == "gpt-4o" && ModelFor("") == "gpt-4o"
    ensures StreamSpec(userId, sessionId, "perplexity", sent, run, Plain, enc, encError, ms).logged.value.provider == "perplexity"
    ensures StreamSpec(userId, sessionId, "perplexity", sent, run, Plain, enc, encError, ms).logged.value.model == "gpt-4o"
  {
  }

  /** The plain route sends the request's messages unchanged and never
      attaches citations. */
  lemma ChatSendsMessagesAsGiven(req: ChatRequest, streamChat: (string, seq<Message>) -> ProviderRun,
                                 enc: OutChunk -> string, encError: string -> string, ms: int, c: StreamChunk)
    requires Validate(req).None?
    ensures ChatSpec(req, streamChat, enc, encError, ms).sent == req.messages.value
    ensures ChatSpec(req, streamChat, enc, encError, ms).model == ModelFor(ProviderName(req))
    ensures Plain(c).citations.None? && Plain(c).chunk == c
  {
  }
}
