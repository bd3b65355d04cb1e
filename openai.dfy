/** The OpenAI adapter: `streamChat` folds the upstream completion chunks into
    `onChunk` calls, then counts tokens and sends one final chunk. The SDK is an
    oracle: the upstream is the list of `choices[0]?.delta?.content` values it
    yields (absent ones are `None`) and an optional error it throws after them;
    the two token-counting calls are one answer or one failure. */
module OpenAI {
  import opened Common
  import opened Schema
  import opened Provider

  const DefaultModel := "gpt-4o"

  /** The provider object; its only observable state is the model name. */
  datatype OpenAIProvider = OpenAIProvider(model: string)

  /** `new OpenAIProvider(model?)`. */
  function NewProvider(model: Option<string>): (p: OpenAIProvider)
    ensures model.None? ==> p.model == DefaultModel
    ensures model.Some? ==> p.model == model.value
  {
    match model
    case None => OpenAIProvider(DefaultModel)
    case Some(m) => OpenAIProvider(m)
  }

  /** The two `chat.completions.create` calls `countTokens` makes: either both
      answer (each `usage?.prompt_tokens`, possibly absent) or one throws. */
  datatype TokenApi = TokenApiFailed | TokenApiAnswered(promptTokens: Option<int>, replyPromptTokens: Option<int>)

  /** `choices[0]?.delta?.content || ''`. */
  function DeltaText(d: Option<string>): string
  {
    match d
    case Some(t) => t
    case None => ""
  }

  /** The delta texts of an upstream, in order. */
  function DeltaTexts(ds: seq<Option<string>>): (r: seq<string>)
    ensures |r| == |ds|
    ensures forall i :: 0 <= i < |ds| ==> r[i] == DeltaText(ds[i])
  {
    seq(|ds|, i requires 0 <= i < |ds| => DeltaText(ds[i]))
  }

  /** `countTokens`: the API path subtracts 9 from the reply's prompt count
      without clamping; a failure falls back to the character estimate. */
  function CountTokens(messages: seq<Message>, text: string, api: TokenApi): (u: Usage)
    ensures u.totalTokens == u.promptTokens + u.completionTokens
    ensures api.TokenApiFailed? ==> u == FallbackUsage(messages, text)
    ensures api.TokenApiAnswered? ==>
      u.promptTokens == OrZero(api.promptTokens) && u.completionTokens == OrZero(api.replyPromptTokens) - 9
  {
    match api
    case TokenApiFailed => FallbackUsage(messages, text)
    case TokenApiAnswered(p, c) =>
      var prompt := OrZero(p);
      var completion := OrZero(c) - 9;
      Usage(prompt, completion, prompt + completion)
  }

  /** A reply counted at fewer than nine tokens reports a negative completion count. */
  lemma NegativeCompletion(messages: seq<Message>, text: string)
    ensures CountTokens(messages, text, TokenApiAnswered(Some(12), Some(4))).completionTokens == -5
    ensures CountTokens(messages, text, TokenApiAnswered(None, None)).totalTokens == -9
  {
  }

  /** `streamChat(messages, onChunk)`: the chunks passed to `onChunk`, in order,
      and the error it rethrows. An upstream error ends the stream before the
      final chunk; there is no retry. */
  method StreamChat(messages: seq<Message>, upstream: seq<Option<string>>, failure: Option<string>, api: TokenApi)
    returns (emitted: seq<StreamChunk>, err: Option<string>)
    ensures err == failure
    ensures EmitsDeltas(emitted, DeltaTexts(upstream))
    ensures failure.Some? ==> |emitted| == |upstream|
    ensures failure.None? ==>
      EmitsFinal(emitted, DeltaTexts(upstream), CountTokens(messages, Concat(DeltaTexts(upstream)), api))
  {
    ghost var texts := DeltaTexts(upstream);
    var content := "";
    emitted := [];
    var i := 0;
    while i < |upstream|
      invariant 0 <= i <= |upstream|
      invariant content == Concat(texts[..i])
      invariant |emitted| == i
      invariant EmitsDeltas(emitted, texts[..i])
    {
      var delta := DeltaText(upstream[i]);
      assert texts[..i + 1] == texts[..i] + [delta];
      EmitsDeltasSnoc(emitted, texts[..i], delta);
      content := content + delta;
      emitted := emitted + [StreamChunk(delta, content, false, None)];
      i := i + 1;
    }
    assert texts[..i] == texts;
    if failure.Some? {
      err := failure;
      return;
    }
    var usage := CountTokens(messages, content, api);
    emitted := emitted + [StreamChunk("", content, true, Some(usage))];
    err := None;
  }
}
