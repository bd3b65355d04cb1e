/** The Anthropic adapter: roles are mapped onto the two the Messages API
    accepts, only text deltas of content blocks become chunks, and token
    counting falls back to the character estimate over the ORIGINAL messages.
    The SDK is an oracle: the upstream is the list of stream events it yields
    and an optional error it throws after them. */
module Anthropic {
  import opened Common
  import opened Schema
  import opened Provider

  const DefaultModel := "claude-3-5-sonnet-20240620"

  datatype AnthropicProvider = AnthropicProvider(model: string)

  /** `new AnthropicProvider(model?)`. */
  function NewProvider(model: Option<string>): (p: AnthropicProvider)
    ensures model.None? ==> p.model == DefaultModel
    ensures model.Some? ==> p.model == model.value
  {
    match model
    case None => AnthropicProvider(DefaultModel)
    case Some(m) => AnthropicProvider(m)
  }

  /** `msg.role === 'assistant' ? 'assistant' : 'user'`. */
  function ConvertRole(role: string): string
  {
    if role == "assistant" then "assistant" else "user"
  }

  /** `convertMessages`. */
  function ConvertMessages(messages: seq<Message>): (r: seq<Message>)
    ensures |r| == |messages|
    ensures forall i :: 0 <= i < |messages| ==> r[i].content == messages[i].content
    ensures forall i :: 0 <= i < |messages| ==> (r[i].role == "assistant" <==> messages[i].role == "assistant")
    ensures forall i :: 0 <= i < |messages| ==> r[i].role == "assistant" || r[i].role == "user"
  {
    seq(|messages|, i requires 0 <= i < |messages| => Message(ConvertRole(messages[i].role), messages[i].content))
  }

  /** Converting twice is converting once: the result is already in the
      two-role form, so `system` and `tool` messages stay `user` messages. */
  lemma ConvertIdempotent(messages: seq<Message>)
    ensures ConvertMessages(ConvertMessages(messages)) == ConvertMessages(messages)
  {
    var once := ConvertMessages(messages);
    var twice := ConvertMessages(once);
    forall i | 0 <= i < |messages| ensures twice[i] == once[i] {
      assert once[i].role == "assistant" || once[i].role == "user";
    }
  }

  /** One stream event: its `type`, its `delta.type` and its `delta.text`. */
  datatype StreamEvent = StreamEvent(kind: string, deltaKind: string, text: string)

  /** `chunk.type === 'content_block_delta' && chunk.delta.type === 'text'`. */
  predicate Accepted(e: StreamEvent)
  {
    e.kind == "content_block_delta" && e.deltaKind == "text"
  }

  /** The texts of the accepted events, in order. */
  function AcceptedTexts(events: seq<StreamEvent>): (r: seq<string>)
    ensures |r| <= |events|
  {
    if |events| == 0 then []
    else
      var last := events[|events| - 1];
      AcceptedTexts(events[..|events| - 1]) + (if Accepted(last) then [last.text] else [])
  }

  /** Filtering distributes over concatenation of event lists. */
  lemma {:induction false} AcceptedTextsAppend(a: seq<StreamEvent>, b: seq<StreamEvent>)
    ensures AcceptedTexts(a + b) == AcceptedTexts(a) + AcceptedTexts(b)
    decreases |b|
  {
    if |b| > 0 {
      var b' := b[..|b| - 1];
      assert (a + b)[..|a + b| - 1] == a + b';
      AcceptedTextsAppend(a, b');
    } else {
      assert a + b == a;
    }
  }

  /** Exactly the accepted events contribute text: each one its own, in order. */
  lemma {:induction false} AcceptedTextsMembers(events: seq<StreamEvent>)
    ensures (forall i :: 0 <= i < |events| ==> Accepted(events[i])) ==> AcceptedTexts(events) == seq(|events|, i requires 0 <= i < |events| => events[i].text)
    ensures (forall i :: 0 <= i < |events| ==> !Accepted(events[i])) ==> AcceptedTexts(events) == []
    decreases |events|
  {
    if |events| > 0 {
      AcceptedTextsMembers(events[..|events| - 1]);
    }
  }

  /** The current SDK's text deltas are typed `text_delta`; the filter as
      written lets none of them through, so such a stream yields only the
      final, empty chunk. */
  lemma TextDeltaIgnored(t: string)
    ensures AcceptedTexts([StreamEvent("content_block_delta", "text_delta", t)]) == []
  {
    assert [StreamEvent("content_block_delta", "text_delta", t)][..0] == [];
  }

  /** The two `client.countTokens` calls: both answer with `input_tokens`, or one throws. */
  datatype CountApi = CountFailed | Counted(promptInput: int, replyInput: int)

  /** `countTokens`: the counts the API gives, taken as they are, or the
      character estimate over the messages as the caller passed them. */
  function CountTokens(messages: seq<Message>, text: string, api: CountApi): (u: Usage)
    ensures u.totalTokens == u.promptTokens + u.completionTokens
    ensures api.CountFailed? ==> u == FallbackUsage(messages, text)
    ensures api.Counted? ==> u.promptTokens == api.promptInput && u.completionTokens == api.replyInput
  {
    match api
    case CountFailed => FallbackUsage(messages, text)
    case Counted(p, c) => Usage(p, c, p + c)
  }

  /** The fallback reads the unconverted roles: a `system` message is counted
      under its own name, not as `user`. */
  lemma FallbackUsesOriginalRoles()
    ensures CountTokens([Message("system", "x")], "", CountFailed).promptTokens == 3
    ensures FallbackUsage(ConvertMessages([Message("system", "x")]), "").promptTokens == 2
  {
    assert PromptString([Message("system", "x")]) == "system: x";
    var converted := ConvertMessages([Message("system", "x")]);
    assert converted == [Message("user", "x")];
    assert PromptString(converted) == "user: x";
  }

  /** `streamChat(messages, onChunk)`: the chunks passed to `onChunk`, in order,
      and the error it rethrows. */
  method StreamChat(messages: seq<Message>, events: seq<StreamEvent>, failure: Option<string>, api: CountApi)
    returns (emitted: seq<StreamChunk>, err: Option<string>)
    ensures err == failure
    ensures EmitsDeltas(emitted, AcceptedTexts(events))
    ensures failure.Some? ==> |emitted| == |AcceptedTexts(events)|
    ensures failure.None? ==>
      EmitsFinal(emitted, AcceptedTexts(events), CountTokens(messages, Concat(AcceptedTexts(events)), api))
  {
    var content := "";
    emitted := [];
    var i := 0;
    while i < |events|
      invariant 0 <= i <= |events|
      invariant content == Concat(AcceptedTexts(events[..i]))
      invariant |emitted| == |AcceptedTexts(events[..i])|
      invariant EmitsDeltas(emitted, AcceptedTexts(events[..i]))
    {
      ghost var before := AcceptedTexts(events[..i]);
      assert events[..i + 1][..i] == events[..i];
      var e := events[i];
      if Accepted(e) {
        ghost var after := before + [e.text];
        assert AcceptedTexts(events[..i + 1]) == after;
        var delta := e.text;
        EmitsDeltasSnoc(emitted, before, delta);
        content := content + delta;
        emitted := emitted + [StreamChunk(delta, content, false, None)];
      } else {
        assert AcceptedTexts(events[..i + 1]) == before;
      }
      i := i + 1;
    }
    assert events[..i] == events;
    if failure.Some? {
      err := failure;
      return;
    }
    var usage := CountTokens(messages, content, api);
    emitted := emitted + [StreamChunk("", content, true, Some(usage))];
    err := None;
  }
}
