/** The retrieval-augmented `POST /chat/stream` handler: it looks up the
    user's completed documents for chunks similar to the last user message,
    puts them into a system prompt, and attaches citations to the chunks it
    forwards. Validation, provider selection, forwarding and logging are
    those of the plain route.

    Similarity is computed by the database; the ordered query result is an
    oracle `retrieve(query, userId)`, and the model applies the `LIMIT` and
    the threshold to it. */
module RagChat {
  import opened Common
  import opened Schema
  import opened Provider
  import opened Metering
  import opened ChatRoute

  const SimilarityThreshold: real := 0.7
  const SearchLimit: nat := 5

  /** One row of the similarity query. `chunkIndex` is the chunk's nullable
      `page` column. */
  datatype SearchRow = SearchRow(id: string, content: string, documentId: string, chunkIndex: Option<int>,
                                 documentTitle: string, similarity: real)

  /** What the search sees: whether a query embedding was obtained (false
      when it was falsy or its generation threw), and the rows of the user's
      completed documents in the query's order, or `None` when the query
      threw. */
  datatype Retrieval = Retrieval(embedded: bool, rows: Option<seq<SearchRow>>)

  /** The rows that pass `similarity >= 0.7`, in order. */
  function Relevant(rows: seq<SearchRow>): (r: seq<SearchRow>)
    ensures |r| <= |rows|
    ensures forall k :: 0 <= k < |r| ==> r[k].similarity >= SimilarityThreshold
    decreases |rows|
  {
    if |rows| == 0 then []
    else if rows[0].similarity >= SimilarityThreshold then [rows[0]] + Relevant(rows[1..])
    else Relevant(rows[1..])
  }

  /** `a` is `b` with some elements dropped, the rest in the same order. */
  predicate IsSubsequence<T(==)>(a: seq<T>, b: seq<T>)
    decreases |b|
  {
    if |a| == 0 then true
    else if |b| == 0 then false
    else (a[0] == b[0] && IsSubsequence(a[1..], b[1..])) || IsSubsequence(a, b[1..])
  }

  /** `searchDocuments(query, userId, limit)`. */
  function SearchDocuments(r: Retrieval, limit: nat): seq<SearchRow>
  {
    if !r.embedded || r.rows.None? then []
    else Relevant(r.rows.value[..Min(limit, |r.rows.value|)])
  }

  /** The filter keeps order: its result is a subsequence of its input. */
  lemma {:induction false} RelevantIsSubsequence(rows: seq<SearchRow>)
    ensures IsSubsequence(Relevant(rows), rows)
    decreases |rows|
  {
    if |rows| > 0 {
      RelevantIsSubsequence(rows[1..]);
      if rows[0].similarity < SimilarityThreshold && |Relevant(rows)| > 0 {
        assert Relevant(rows) == Relevant(rows[1..]);
      }
    }
  }

  /** The filter drops nothing that passes the threshold. */
  lemma {:induction false} RelevantComplete(rows: seq<SearchRow>, k: nat)
    requires k < |rows| && rows[k].similarity >= SimilarityThreshold
    ensures rows[k] in Relevant(rows)
    decreases |rows|
  {
    if k > 0 {
      RelevantComplete(rows[1..], k - 1);
      assert rows[1..][k - 1] == rows[k];
    }
  }

  /** The search returns at most `limit` rows, each at or above the
      threshold, in the query's order, and keeps every qualifying row among
      the first `limit`; a failed embedding or query yields no rows. */
  lemma SearchContract(r: Retrieval, limit: nat)
    ensures |SearchDocuments(r, limit)| <= limit
    ensures forall k :: 0 <= k < |SearchDocuments(r, limit)| ==> SearchDocuments(r, limit)[k].similarity >= SimilarityThreshold
    ensures (!r.embedded || r.rows.None?) ==> SearchDocuments(r, limit) == []
    ensures r.embedded && r.rows.Some? ==>
      IsSubsequence(SearchDocuments(r, limit), r.rows.value[..Min(limit, |r.rows.value|)])
    ensures r.embedded && r.rows.Some? ==>
      forall k :: 0 <= k < Min(limit, |r.rows.value|) && r.rows.value[k].similarity >= SimilarityThreshold
        ==> r.rows.value[k] in SearchDocuments(r, limit)
  {
    if r.embedded && r.rows.Some? {
      var top := r.rows.value[..Min(limit, |r.rows.value|)];
      RelevantIsSubsequence(top);
      forall k | 0 <= k < Min(limit, |r.rows.value|) && r.rows.value[k].similarity >= SimilarityThreshold
        ensures r.rows.value[k] in SearchDocuments(r, limit)
      {
        assert top[k] == r.rows.value[k];
        RelevantComplete(top, k);
      }
    }
  }

  /** The user-role messages, in order. */
  function UserMessages(ms: seq<Message>): seq<Message>
    decreases |ms|
  {
    if |ms| == 0 then []
    else if ms[|ms| - 1].role == "user" then UserMessages(ms[..|ms| - 1]) + [ms[|ms| - 1]]
    else UserMessages(ms[..|ms| - 1])
  }

  /** `userMessages[userMessages.length - 1]?.content || ''`. */
  function LastUserContent(ms: seq<Message>): string
  {
    var users := UserMessages(ms);
    if |users| == 0 then "" else users[|users| - 1].content
  }

  /** The search query is the content of the last user-role message. */
  lemma {:induction false} LastUserContentIs(ms: seq<Message>, k: nat)
    requires k < |ms| && ms[k].role == "user"
    requires forall j :: k < j < |ms| ==> ms[j].role != "user"
    ensures LastUserContent(ms) == ms[k].content
    decreases |ms|
  {
    if k < |ms| - 1 {
      var init := ms[..|ms| - 1];
      assert forall j :: 0 <= j < |init| ==> init[j] == ms[j];
      LastUserContentIs(init, k);
    }
  }

  /** Without any user-role message the query is empty. */
  lemma {:induction false} NoUserMessage(ms: seq<Message>)
    requires forall j :: 0 <= j < |ms| ==> ms[j].role != "user"
    ensures LastUserContent(ms) == ""
    decreases |ms|
  {
    if |ms| > 0 {
      var init := ms[..|ms| - 1];
      assert forall j :: 0 <= j < |init| ==> init[j] == ms[j];
      NoUserMessage(init);
    }
  }

  /** `[Document N: title]\ncontent`. */
  function Block(n: nat, row: SearchRow): string
  {
    "[Document " + NatToString(n) + ": " + row.documentTitle + "]\n" + row.content
  }

  /** The blocks numbered from 1 in retrieval order, joined by a blank line. */
  function ContextSections(rows: seq<SearchRow>): string
  {
    Join(seq(|rows|, i requires 0 <= i < |rows| => Block(i + 1, rows[i])), "\n\n")
  }

  const PromptHead := PromptIntro + ContextMarker
  const PromptIntro := "You are Dahlia, an AI legal assistant specializing in contract analysis and legal research. You have access to the user's uploaded legal documents and can reference them to provide accurate, contextual answers.\n\n"
  const ContextMarker := "RETRIEVED CONTEXT:\n"
  const PromptTail := InstructionsMarker + Instructions
  const InstructionsMarker := "\n\nINSTRUCTIONS:"
  const Instructions := "\n- Use the provided context to answer questions about the user's documents\n- Cite specific document sections when referencing information\n- If the context doesn't contain relevant information, clearly state that\n- Provide practical legal insights while noting you're not providing legal advice\n- Be concise but thorough in your responses\n\nRemember to always cite your sources using the format [Document X] when referencing the provided context."

  /** The system prompt: the context section sits right after the
      `RETRIEVED CONTEXT:` line and right before the blank line and
      `INSTRUCTIONS:`. */
  function SystemPrompt(rows: seq<SearchRow>): (p: string)
    ensures |p| == |PromptHead| + |ContextSections(rows)| + |PromptTail|
    ensures p[..|PromptHead|] == PromptHead
    ensures p[|PromptHead|..|PromptHead| + |ContextSections(rows)|] == ContextSections(rows)
    ensures p[|PromptHead| + |ContextSections(rows)|..] == PromptTail
  {
    ThreeParts(PromptHead, ContextSections(rows), PromptTail);
    PromptHead + ContextSections(rows) + PromptTail
  }

  /** The head ends with the `RETRIEVED CONTEXT:` line and the tail starts
      with a blank line and `INSTRUCTIONS:`. */
  lemma PromptMarkers()
    ensures |PromptHead| >= 19 && PromptHead[|PromptHead| - 19..] == "RETRIEVED CONTEXT:\n"
    ensures |PromptTail| >= 15 && PromptTail[..15] == "\n\nINSTRUCTIONS:"
  {
    ThreeParts(PromptIntro, ContextMarker, "");
    ThreeParts("", InstructionsMarker, Instructions);
    assert |ContextMarker| == 19 && |InstructionsMarker| == 15;
    assert PromptIntro + ContextMarker + "" == PromptHead;
    assert "" + InstructionsMarker + Instructions == PromptTail;
  }

  /** `augmentWithContext(originalMessages, relevantChunks)`: the input is
      unchanged when nothing was retrieved; otherwise the system prompt takes
      the place of a leading system message, or is put in front. */
  function AugmentWithContext(ms: seq<Message>, rows: seq<SearchRow>): (r: seq<Message>)
  {
    if |rows| == 0 then ms
    else
      var system := Message("system", SystemPrompt(rows));
      if |ms| > 0 && ms[0].role == "system" then ms[0 := system] else [system] + ms
  }

  /** With context, the augmented list starts with the system prompt; a
      leading system message is replaced, so the length is kept, and
      otherwise the prompt is prepended, so the length grows by one; every
      other message keeps its content and order. With no context the list is
      returned as it came. */
  lemma AugmentShape(ms: seq<Message>, rows: seq<SearchRow>)
    ensures |rows| == 0 ==> AugmentWithContext(ms, rows) == ms
    ensures |rows| > 0 ==>
      var r := AugmentWithContext(ms, rows);
      && |r| > 0 && r[0] == Message("system", SystemPrompt(rows))
      && (|ms| > 0 && ms[0].role == "system" ==> |r| == |ms| && r[1..] == ms[1..])
      && (!(|ms| > 0 && ms[0].role == "system") ==> |r| == |ms| + 1 && r[1..] == ms)
  {
  }

  /** Augmenting an already augmented list with the same context changes
      nothing: the prompt it put in front is a leading system message. */
  lemma AugmentIdempotent(ms: seq<Message>, rows: seq<SearchRow>)
    ensures AugmentWithContext(AugmentWithContext(ms, rows), rows) == AugmentWithContext(ms, rows)
  {
    if |rows| > 0 {
      var r := AugmentWithContext(ms, rows);
      assert r[0].role == "system";
      assert r[0 := r[0]] == r;
    }
  }

  /** One retrieved chunk gives one block, numbered 1; two give two blocks
      numbered 1 and 2, separated by a blank line. */
  lemma ContextNumbering(a: SearchRow, b: SearchRow)
    ensures ContextSections([a]) == "[Document 1: " + a.documentTitle + "]\n" + a.content
    ensures ContextSections([a, b]) ==
      "[Document 1: " + a.documentTitle + "]\n" + a.content + "\n\n" + ("[Document 2: " + b.documentTitle + "]\n" + b.content)
  {
    assert NatToString(1) == "1";
    assert NatToString(2) == "2";
    assert Block(1, a) == "[Document 1: " + a.documentTitle + "]\n" + a.content;
    assert Block(2, b) == "[Document 2: " + b.documentTitle + "]\n" + b.content;
    var two := seq(2, i requires 0 <= i < 2 => Block(i + 1, [a, b][i]));
    assert two == [Block(1, a), Block(2, b)];
    assert two[1..] == [Block(2, b)];
    assert ContextSections([a, b]) == Join(two, "\n\n");
    assert Join(two, "\n\n") == Block(1, a) + "\n\n" + Join([Block(2, b)], "\n\n");
  }

  /** One citation per retrieved chunk, in order; the page is the chunk's
      index plus one, a missing index counting as 0. */
  function Citations(rows: seq<SearchRow>): (cs: seq<Citation>)
    ensures |cs| == |rows|
    ensures forall k :: 0 <= k < |rows| ==>
      cs[k].kind == "doc" && cs[k].id == rows[k].documentId && cs[k].title == rows[k].documentTitle
    ensures forall k :: 0 <= k < |rows| ==>
      cs[k].page == (if rows[k].chunkIndex.Some? then rows[k].chunkIndex.value + 1 else 1)
  {
    seq(|rows|, i requires 0 <= i < |rows| => Citation("doc", rows[i].documentId, rows[i].documentTitle,
                                                       OrZero(rows[i].chunkIndex) + 1))
  }

  /** The callback's `chunk.citations = ...`: only when something was
      retrieved and the chunk has content. */
  function Decorate(rows: seq<SearchRow>, c: StreamChunk): (o: OutChunk)
    ensures o.chunk == c
    ensures o.citations.Some? <==> |rows| > 0 && c.content != ""
    ensures o.citations.Some? ==> o.citations.value == Citations(rows)
  {
    if |rows| > 0 && c.content != "" then OutChunk(c, Some(Citations(rows))) else OutChunk(c, None)
  }

  function Decorator(rows: seq<SearchRow>): StreamChunk -> OutChunk
  {
    c => Decorate(rows, c)
  }

  /** The final chunk of a completed provider run has empty content, so it
      never carries citations. */
  lemma FinalChunkUncited(emitted: seq<StreamChunk>, deltas: seq<string>, usage: Usage, rows: seq<SearchRow>)
    requires EmitsFinal(emitted, deltas, usage)
    ensures Decorate(rows, emitted[|emitted| - 1]).citations.None?
  {
  }

  /** The retrieval-augmented handler as a specification. */
  function RagSpec(req: ChatRequest, retrieve: (string, string) -> Retrieval,
                   streamChat: (string, seq<Message>) -> ProviderRun, enc: OutChunk -> string,
                   encError: string -> string, ms: int): ChatReply
  {
    match Validate(req)
    case Some(e) => BadRequest(e)
    case None =>
      var messages := req.messages.value;
      var userId := req.userId.value;
      var rows := SearchDocuments(retrieve(LastUserContent(messages), userId), SearchLimit);
      var sent := AugmentWithContext(messages, rows);
      var name := ProviderName(req);
      StreamSpec(userId, req.sessionId.value, name, sent, streamChat(ModelFor(name), sent),
                 Decorator(rows), enc, encError, ms)
  }

  /** `POST /chat/stream` of `worker/dist/routes/chat.js`. */
  method HandleRagChat(db: Database, req: ChatRequest, retrieve: (string, string) -> Retrieval,
                       streamChat: (string, seq<Message>) -> ProviderRun, enc: OutChunk -> string,
                       encError: string -> string, ms: int, timestamp: int, fault: Option<string>)
    returns (reply: ChatReply)
    requires db.Valid()
    modifies db
    ensures reply == RagSpec(req, retrieve, streamChat, enc, encError, ms)
    ensures db.Valid()
    ensures db.usageLogs == old(db.usageLogs) + LoggedRows(reply, timestamp, fault)
    ensures db.documents == old(db.documents) && db.chunks == old(db.chunks) && db.quotas == old(db.quotas)
  {
    var err := Validate(req);
    if err.Some? {
      return BadRequest(err.value);
    }
    var messages := req.messages.value;
    var userId := req.userId.value;
    var lastUserMessage := LastUserContent(messages);
    var relevantChunks := SearchDocuments(retrieve(lastUserMessage, userId), SearchLimit);
    var augmented := AugmentWithContext(messages, relevantChunks);
    var name := ProviderName(req);
    reply := RunStream(db, userId, req.sessionId.value, name, augmented, streamChat(ModelFor(name), augmented),
                       Decorator(relevantChunks), enc, encError, ms, timestamp, fault);
  }

  /** Decorators that agree on every chunk give the same frames. */
  lemma {:induction false} FramesAgree(chunks: seq<StreamChunk>, d1: StreamChunk -> OutChunk, d2: StreamChunk -> OutChunk,
                                       enc: OutChunk -> string)
    requires forall c :: d1(c) == d2(c)
    ensures Frames(chunks, d1, enc) == Frames(chunks, d2, enc)
    decreases |chunks|
  {
    if |chunks| > 0 {
      FramesAgree(chunks[..|chunks| - 1], d1, d2, enc);
    }
  }

  /** When retrieval yields nothing (no embedding, a failed query, or no row
      above the threshold), the augmented route answers exactly as the plain
      route does. */
  lemma NoContextIsPlainChat(req: ChatRequest, retrieve: (string, string) -> Retrieval,
                             streamChat: (string, seq<Message>) -> ProviderRun, enc: OutChunk -> string,
                             encError: string -> string, ms: int)
    requires Validate(req).None?
    requires SearchDocuments(retrieve(LastUserContent(req.messages.value), req.userId.value), SearchLimit) == []
    ensures RagSpec(req, retrieve, streamChat, enc, encError, ms) == ChatSpec(req, streamChat, enc, encError, ms)
  {
    var name := ProviderName(req);
    var run := streamChat(ModelFor(name), req.messages.value);
    FramesAgree(run.chunks, Decorator([]), Plain, enc);
  }

  /** With context, the provider sees the augmented messages and every
      non-empty chunk is forwarded with one citation per retrieved chunk. */
  lemma ContextIsSentAndCited(req: ChatRequest, retrieve: (string, string) -> Retrieval,
                              streamChat: (string, seq<Message>) -> ProviderRun, enc: OutChunk -> string,
                              encError: string -> string, ms: int)
    requires Validate(req).None?
    ensures var rows := SearchDocuments(retrieve(LastUserContent(req.messages.value), req.userId.value), SearchLimit);
      var r := RagSpec(req, retrieve, streamChat, enc, encError, ms);
      && r.sent == AugmentWithContext(req.messages.value, rows)
      && |rows| <= SearchLimit
      && forall c: StreamChunk :: c.content != "" && |rows| > 0 ==> Decorator(rows)(c).citations == Some(Citations(rows))
  {
    SearchContract(retrieve(LastUserContent(req.messages.value), req.userId.value), SearchLimit);
  }
}
