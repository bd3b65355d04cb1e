/** What the chat providers hand to their callers: the chunks of a streamed
    completion and the token usage that rides on the last one, plus the rough
    character-based token estimate both the OpenAI and the Anthropic adapters
    fall back to when their token-counting call fails. */
module Provider {
  import opened Common
  import opened Schema

  /** `{ prompt_tokens, completion_tokens, total_tokens }`. */
  datatype Usage = Usage(promptTokens: int, completionTokens: int, totalTokens: int)

  /** The object passed to `onChunk`: `{ content, accumulated, done, usage? }`. */
  datatype StreamChunk = StreamChunk(content: string, accumulated: string, done: bool, usage: Option<Usage>)

  /** `messages.map(m => `${m.role}: ${m.content}`).join('\n')`. */
  function PromptString(messages: seq<Message>): string
  {
    Join(seq(|messages|, i requires 0 <= i < |messages| => messages[i].role + ": " + messages[i].content), "\n")
  }

  /** The four-characters-per-token estimate for a prompt and a reply. */
  function FallbackUsage(messages: seq<Message>, text: string): (u: Usage)
    ensures u.totalTokens == u.promptTokens + u.completionTokens
    ensures 0 <= u.promptTokens && 0 <= u.completionTokens
    ensures 4 * u.promptTokens - 4 < |PromptString(messages)| <= 4 * u.promptTokens
    ensures 4 * u.completionTokens - 4 < |text| <= 4 * u.completionTokens
  {
    var p := CeilDiv(|PromptString(messages)|, 4);
    var c := CeilDiv(|text|, 4);
    Usage(p, c, p + c)
  }

  /** What a provider's `streamChat` does: one non-final chunk per accepted
      delta, whose `accumulated` is the concatenation of the deltas so far. */
  predicate EmitsDeltas(emitted: seq<StreamChunk>, deltas: seq<string>)
  {
    && |deltas| <= |emitted|
    && forall i :: 0 <= i < |deltas| ==>
         emitted[i] == StreamChunk(deltas[i], Concat(deltas[..i + 1]), false, None)
  }

  /** ... and, once the upstream is exhausted, one final chunk with the whole
      text and the usage, which is the last one. */
  predicate EmitsFinal(emitted: seq<StreamChunk>, deltas: seq<string>, usage: Usage)
  {
    && EmitsDeltas(emitted, deltas)
    && |emitted| == |deltas| + 1
    && emitted[|deltas|] == StreamChunk("", Concat(deltas), true, Some(usage))
  }

  /** Emitting one more delta keeps the stream well formed. */
  lemma EmitsDeltasSnoc(emitted: seq<StreamChunk>, deltas: seq<string>, d: string)
    requires |emitted| == |deltas| && EmitsDeltas(emitted, deltas)
    ensures Concat(deltas + [d]) == Concat(deltas) + d
    ensures EmitsDeltas(emitted + [StreamChunk(d, Concat(deltas) + d, false, None)], deltas + [d])
  {
    var ds := deltas + [d];
    assert ds[..|deltas|] == deltas;
    forall j | 1 <= j <= |deltas| ensures Concat(ds[..j]) == Concat(deltas[..j]) {
      assert ds[..j] == deltas[..j];
    }
    assert ds[..|deltas| + 1] == ds;
  }

  /** Each chunk's `accumulated` extends the previous one by exactly its `content`. */
  lemma AccumulatedStep(emitted: seq<StreamChunk>, deltas: seq<string>, i: nat)
    requires EmitsDeltas(emitted, deltas)
    requires 0 < i < |deltas|
    ensures emitted[i].accumulated == emitted[i - 1].accumulated + emitted[i].content
  {
    assert deltas[..i + 1][..i] == deltas[..i];
  }

  /** Every `accumulated` is a prefix of every later one and of the final text. */
  lemma AccumulatedPrefixes(emitted: seq<StreamChunk>, deltas: seq<string>, i: nat, j: nat)
    requires EmitsDeltas(emitted, deltas)
    requires i <= j < |deltas|
    ensures IsPrefix(emitted[i].accumulated, emitted[j].accumulated)
    ensures IsPrefix(emitted[i].accumulated, Concat(deltas))
  {
    assert emitted[i].accumulated == Concat(deltas[..i + 1]);
    assert emitted[j].accumulated == Concat(deltas[..j + 1]);
    PrefixOfPrefix(deltas, i + 1, j + 1);
    ConcatPrefix(deltas, i + 1);
  }

  lemma PrefixOfPrefix(deltas: seq<string>, m: nat, n: nat)
    requires m <= n <= |deltas|
    ensures IsPrefix(Concat(deltas[..m]), Concat(deltas[..n]))
  {
    ConcatPrefix(deltas[..n], m);
    assert deltas[..n][..m] == deltas[..m];
  }

  /** Only the final chunk is marked done, and only it carries usage. */
  lemma OnlyFinalIsDone(emitted: seq<StreamChunk>, deltas: seq<string>, usage: Usage, i: nat)
    requires EmitsFinal(emitted, deltas, usage)
    requires i < |emitted|
    ensures emitted[i].done <==> i == |emitted| - 1
    ensures emitted[i].usage.Some? <==> i == |emitted| - 1
  {
  }
}
