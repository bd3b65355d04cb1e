# Ask Dahlia worker core, modelled in Dafny

Ask Dahlia is a legal assistant built from a Next.js front end and an Express
worker. This project models the worker's deterministic core and a few rules
from the front end, and proves properties of the model.

- **Document ingestion** (`Ingest`). `POST /ingest/process` does the following:
  - validates a `data:<mime>;base64,<data>` upload;
  - accepts only `text/plain`;
  - splits the text on `/[.!?]+\s+/`, drops blank pieces and groups the rest three sentences to a chunk;
  - embeds each chunk, degrading when one embedding fails;
  - moves the document from `processing` to `completed`.

  `GET /ingest/status/:id` counts a document's chunks or answers 404.
- **Chat routes.**
  - `ChatRoute` is the plain `POST /chat/stream` of `worker/routes/chat.ts`:
    - it validates the request in a fixed order;
    - it selects the provider;
    - it forwards every provider chunk as a `data:` frame;
    - it writes one `event: end` or `event: error` frame;
    - on success it logs the usage of the last usage-bearing chunk.
  - `RagChat` is the compiled route `worker/dist/routes/chat.js`. It adds three steps:
    - retrieval: the similarity rows at or above 0.7, at most 5;
    - the context system prompt, which replaces a leading system message or is prepended;
    - citations on every chunk with content.
- **Provider adapters.**
  - `Provider` holds the shared chunk shape and the `ceil(len/4)` fallback token count.
  - `OpenAI` and `Anthropic` hold the `streamChat` accumulator loops and `countTokens`. `Anthropic` also holds the role mapping.
  - `Perplexity` holds the request body, the per-model price rule and the `handleStreamResponse` line fold with its usage tracking.
- **Metering** (`Metering`, `UsageRoutes`).
  - `Metering` holds the price table with its global default, `calculateCost` as an exact `real`, and the best-effort `logUsage` insert.
  - `UsageRoutes` holds the routes' period start, totals, the `byProvider` grouping, the clamped remaining quota, the `check-quota` flags and the history `hasMore` flag.
- **SSE framing and the client reader.**
  - `Sse` holds `createSSE`, `parseSSE` and `isQuotaExceeded`.
  - `WorkerClient` holds `callWorker` and the `readStream` dispatcher of `src/lib/worker.ts`.
- **SEC routes** (`Sec`). These cover:
  - the `/search` filing loop, with its bound, its form filter and its order;
  - CIK padding and the EDGAR URLs;
  - `/filing`;
  - the `/add-to-corpus` field checks and defaults;
  - the `/ticker` lookup.
- **Route guard** (`Middleware`). Paths are classified by prefix, and the guard decides between `/login`, `/dashboard` and passing the request on.
- **Page rules.**
  - `Risk` holds the score, the class thresholds, the 5×5 matrix with its legend, and the generate and save guards.
  - `DraftEmail` holds:
    - the recipient pattern `^[^\s@]+@[^\s@]+\.[^\s@]+$`;
    - adding and removing recipients;
    - the generate guards, the greeting name and the draft template;
    - the save, export and copy guards.

`Common` holds the JavaScript string built-ins the code relies on: `trim`,
`split` on one character, `indexOf`, `padStart`, `Math.ceil` of a quotient,
`replace(/-/g, '')` and an ASCII `toUpperCase`. `Schema` holds the row
datatypes and a `Database` class. Its `documents`, `chunks`, `usageLogs` and
`quotas` fields are the tables the routes write.

The following are parameters: the database faults, the embedder, the
similarity query, the LLM SDK streams, `fetch`, `JSON.stringify` and
`JSON.parse`, base64 and UTF-8 decoding, `uniqueId`, clocks and elapsed
milliseconds.

Some behaviours of the code are easy to misread, and the model follows the
code in each:

- **Pricing.** `calculateCost` has no per-provider default: an unlisted model of a listed provider pays the global default (`Metering.PriceFor`, `Metering.PriceTable`).
- **Citations.** Only chunks whose `content` is non-empty carry citations, and a citation's page is `(chunkIndex || 0) + 1`, where `chunkIndex` is the chunk's `page` column (`RagChat.Decorate`, `RagChat.Citations`).
- **Client disconnect.** `req.on('close')` only ends the pass-through stream: the provider call goes on and usage is still logged. The model leaves the disconnect out (see "Left out").
- **API-path token count.** On OpenAI's API path the completion count is the reported count minus 9, unclamped, so it can be negative (`OpenAI.NegativeCompletion`).

Anthropic's stream filter tests `delta.type === 'text'`. This is modelled as
written, and `Anthropic.TextDeltaIgnored` shows that an event whose delta type
is `text_delta` produces no chunk.

## Model

| member | source | states |
|---|---|---|
| Provider.PromptString | worker/lib/providers/openai.ts:109 | the `role: content` lines joined by newlines; its length is the fallback prompt count of `Provider.FallbackUsage` |
| Provider.FallbackUsage | worker/lib/providers/openai.ts:107-117 | fallback count: prompt tokens are the length of the `role: content` lines joined by newlines, divided by 4 and rounded up; completion tokens the reply's length divided by 4 and rounded up; total their sum; none negative |
| Provider.EmitsDeltasSnoc | worker/lib/providers/openai.ts:36-45 | appending the chunk for one more delta, with `accumulated` = old text + delta, keeps the stream "one chunk per delta, accumulated = concatenation so far" |
| Provider.AccumulatedStep | worker/lib/providers/openai.ts:37-44 | each chunk's `accumulated` is the previous chunk's `accumulated` followed by its own `content` |
| Provider.AccumulatedPrefixes | worker/lib/providers/openai.ts:34-45 | an earlier `accumulated` is a prefix of every later one and of the full text |
| Provider.OnlyFinalIsDone | worker/lib/providers/openai.ts:47-60 | in a completed stream exactly the last chunk has `done` and exactly the last carries usage |
| OpenAI.NewProvider | worker/lib/providers/openai.ts:9-14 | the default model is `gpt-4o`; a given model is kept |
| OpenAI.DeltaTexts | worker/lib/providers/openai.ts:37 | one delta per upstream chunk, an absent content read as `''` |
| OpenAI.CountTokens | worker/lib/providers/openai.ts:73-118 | total = prompt + completion; a failed API call gives the fallback count; otherwise prompt = reported count (0 if absent) and completion = reported reply count (0 if absent) − 9 |
| OpenAI.NegativeCompletion | worker/lib/providers/openai.ts:97 | the API-path completion count is not clamped: it can be −5, and the total −9 |
| OpenAI.StreamChat | worker/lib/providers/openai.ts:21-65 | one non-final chunk per upstream chunk with the prefix concatenation; on success one final `done` chunk with the full text and the counted usage; an upstream error is rethrown unchanged, with no final chunk |
| Anthropic.NewProvider | worker/lib/providers/anthropic.ts:7-12 | the default model is `claude-3-5-sonnet-20240620`; a given model is kept |
| Anthropic.ConvertMessages | worker/lib/providers/anthropic.ts:19-24 | same length, order and content; a role is `assistant` exactly when it was `assistant`, every other role becomes `user` |
| Anthropic.ConvertIdempotent | worker/lib/providers/anthropic.ts:19-24 | converting converted messages changes nothing |
| Anthropic.AcceptedTexts | worker/lib/providers/anthropic.ts:47-58 | at most one delta per upstream event |
| Anthropic.AcceptedTextsAppend | worker/lib/providers/anthropic.ts:47-58 | the event filter distributes over concatenation of event streams |
| Anthropic.AcceptedTextsMembers | worker/lib/providers/anthropic.ts:48 | if every event passes the filter, all texts are kept in order; if none passes, nothing is emitted |
| Anthropic.TextDeltaIgnored | worker/lib/providers/anthropic.ts:48 | a `content_block_delta` event whose delta type is `text_delta` produces no chunk |
| Anthropic.CountTokens | worker/lib/providers/anthropic.ts:86-130 | total = prompt + completion; a failed count gives the fallback; otherwise both are the API's `input_tokens` |
| Anthropic.FallbackUsesOriginalRoles | worker/lib/providers/anthropic.ts:118-128 | the fallback counts the unconverted roles (`system: x` gives 3 tokens where the converted `user: x` would give 2) |
| Anthropic.StreamChat | worker/lib/providers/anthropic.ts:31-78 | one chunk per accepted event with the prefix concatenation; on success one final `done` chunk with the full text and the counted usage; an error is rethrown with no final chunk |
| Perplexity.CalculateCost | worker/lib/providers/perplexity.ts:251-261 | cost is non-negative for non-negative tokens and zero for zero tokens |
| Perplexity.CostRule | worker/lib/providers/perplexity.ts:251-265 | cost is tokens/1000 × 0.0015, 0.002 or 0.005 by model; an unknown model costs what `sonar` costs |
| Perplexity.CostAdditive | worker/lib/providers/perplexity.ts:259-260 | cost is additive in tokens |
| Perplexity.ChatRequest | worker/lib/providers/perplexity.ts:63-80 | `max_tokens` is 4000 exactly for `sonar-deep-research`, else 2000; temperature 0.1; model and stream flag as given |
| Perplexity.Chat | worker/lib/providers/perplexity.ts:60-116 | `chat(..., stream = false)` is `Perplexity.JsonCall` with the `Perplexity API error: ` prefix, so its contract is that member's; `Perplexity.StreamRejectsLikeJson` ties it to the streaming call |
| Perplexity.Research | worker/lib/providers/perplexity.ts:187-249 | `research` is `Perplexity.JsonCall` with the `Perplexity research API error: ` prefix and the model `sonar-deep-research`; its request is `Perplexity.ResearchRequest` |
| Perplexity.JsonCall | worker/lib/providers/perplexity.ts:92-115 | a non-OK reply throws `prefix + status + ' ' + body`; an OK reply tracks usage once exactly when the body has `usage`, recorded against the caller's user id as provider `perplexity` with the model, the reply's total, prompt and completion tokens, and the total's cost |
| Perplexity.ResearchRequest | worker/lib/providers/perplexity.ts:207-218 | `max_tokens` 4000; `top_k` is `maxResults`, or 10 when it is absent or 0; recency is `recencyFilter`, or `month` when it is absent or empty |
| Perplexity.HandleStreamResponse | worker/lib/providers/perplexity.ts:118-185 | the nested read/line loops produce exactly the frames, usage calls and ending of the line fold over the decoded reads |
| Perplexity.StreamingChat | worker/lib/providers/perplexity.ts:92-98 | with `stream = true` a non-OK reply throws `Perplexity API error: <status> <text>` and a bodiless reply throws `Failed to get response reader`, both before any stream exists; otherwise the stream outcome, which tracks usage only when it closed |
| Perplexity.StreamRejectsLikeJson | worker/lib/providers/perplexity.ts:92-95 | a non-OK reply is rejected with the same message whether or not the call streams |
| Perplexity.ConsumeAppend | worker/lib/providers/perplexity.ts:135-178 | folding two line lists is folding the first and, unless it stopped, continuing with the second |
| Perplexity.OtherLinesIgnored | worker/lib/providers/perplexity.ts:143 | a line not starting with `data: ` changes nothing |
| Perplexity.DataLineStep | worker/lib/providers/perplexity.ts:161-175 | an unparseable data line is skipped; a parsed one appends `data: <json>\n\n` and, when it has usage, overwrites all three counters |
| Perplexity.FramesOnlyAppended | worker/lib/providers/perplexity.ts:172 | frames are only appended: earlier output is a prefix of later output |
| Perplexity.DoneStopsTheStream | worker/lib/providers/perplexity.ts:145-159 | after a `[DONE]` line no further line is looked at |
| Perplexity.TrackedOnceAtDone | worker/lib/providers/perplexity.ts:145-159 | usage is tracked at most once, exactly when the stream closed at `[DONE]` with a positive total; the record carries the caller's user id, provider `perplexity`, the model, the last reported total, prompt and completion counts, and the total's cost |
| Perplexity.NoDoneLeavesOpen | worker/lib/providers/perplexity.ts:135-137 | a body that ends without `[DONE]` leaves the stream open and tracks nothing |
| Perplexity.NoDoneRuns | worker/lib/providers/perplexity.ts:142-177 | without a `[DONE]` line the fold never stops |
| Metering.CalculateCost | worker/lib/usage.ts:66-79 | `calculateCost`; its contract is carried by `Metering.PriceFor`, `Metering.PricePerThousand`, `Metering.ZeroCost`, `Metering.CostMonotone` and `Metering.CostAdditive` |
| Metering.PriceFor | worker/lib/usage.ts:72-73 | the listed provider/model row, otherwise the global default 0.01/0.03; prices are positive |
| Metering.PriceTable | worker/lib/usage.ts:4-45 | the table's rows, and the global default for an unlisted model or provider |
| Metering.PricePerThousand | worker/lib/usage.ts:75-78 | prices are per thousand tokens: 1000 prompt tokens cost exactly the input price, 1000 completion tokens exactly the output price |
| Metering.ZeroCost | worker/lib/usage.ts:75-78 | zero tokens cost nothing |
| Metering.CostMonotone | worker/lib/usage.ts:75-78 | cost is non-negative and grows with either token count |
| Metering.CostAdditive | worker/lib/usage.ts:75-78 | cost is additive over token counts |
| Metering.UsageRowOf | worker/lib/usage.ts:98-112 | the inserted row copies every field and sets `costUsd` to `calculateCost` of them |
| Metering.LogUsage | worker/lib/usage.ts:85-118 | exactly one row is appended, or none when the insert fails; no error reaches the caller; other tables unchanged |
| UsageRoutes.PeriodStart | worker/routes/usage.ts:20-31 | `day` is midnight, `week` is now − 7 days, anything else the first of the month |
| UsageRoutes.LogsSince | worker/routes/usage.ts:34-36 | exactly the user's rows at or after the start: every kept row matches, and every matching row is kept |
| UsageRoutes.TotalsOf | worker/routes/usage.ts:39-41 | `requests` is the row count |
| UsageRoutes.OfProvider | worker/routes/usage.ts:50-62 | exactly that provider's rows: every kept row is the provider's, and every row of the provider is kept |
| UsageRoutes.FindEntry | worker/routes/usage.ts:51 | the index of the provider's entry, or −1 exactly when there is none |
| UsageRoutes.Group | worker/routes/usage.ts:50-62 | the grouping that `byProvider` computes; `UsageRoutes.ByProvider` proves the reduce loop equals it, and `UsageRoutes.GroupIsGrouping` and `UsageRoutes.GroupSums` state what it holds |
| UsageRoutes.ByProvider | worker/routes/usage.ts:50-62 | the in-place reduce yields the grouping function's entries |
| UsageRoutes.SumsUpdate | worker/routes/usage.ts:58-60 | replacing one entry changes each sum by the difference |
| UsageRoutes.GroupSums | worker/routes/usage.ts:50-62 | the per-provider tokens, costs and requests add up to the totals |
| UsageRoutes.AddLogSums | worker/routes/usage.ts:51-61 | one reduce step adds the row's tokens, cost and one request |
| UsageRoutes.OfProviderSnoc | worker/routes/usage.ts:58-60 | a provider's totals grow by the new row exactly when it is that provider's row |
| UsageRoutes.GroupIsGrouping | worker/routes/usage.ts:50-62 | one entry per provider present, distinct, each holding exactly its provider's totals |
| UsageRoutes.AddLogGroups | worker/routes/usage.ts:51-61 | one reduce step keeps the grouping exact |
| UsageRoutes.AddLogDistinct | worker/routes/usage.ts:51-57 | a new key is created only for an unseen provider |
| UsageRoutes.AddLogExact | worker/routes/usage.ts:51-61 | after the step, every entry holds its provider's totals |
| UsageRoutes.UntouchedEntry | worker/routes/usage.ts:58-60 | another provider's entry stays exact |
| UsageRoutes.BumpedEntry | worker/routes/usage.ts:58-60 | the bumped entry becomes exact for the longer list |
| UsageRoutes.AddLogCovers | worker/routes/usage.ts:51-57 | every provider seen has an entry |
| UsageRoutes.OfProviderAbsent | worker/routes/usage.ts:50-62 | a provider without an entry has no rows |
| UsageRoutes.OfProviderNone | worker/routes/usage.ts:50-62 | a provider that never occurs has no rows |
| UsageRoutes.QuotaFor | worker/routes/usage.ts:44-47 | a quota row of that user, absent exactly when the user has none |
| UsageRoutes.QuotaOf | worker/routes/usage.ts:74-84 | `null` exactly without a quota row; each remaining amount is `max(0, limit − used)` and never negative |
| UsageRoutes.Stats | worker/routes/usage.ts:11-91 | a 500 exactly when a query throws |
| UsageRoutes.StatsConsistent | worker/routes/usage.ts:38-84 | the reply's per-provider sums equal its totals over tokens, cost and requests, and the quota is `null` exactly when the user has no quota row |
| UsageRoutes.CheckQuota | worker/routes/usage.ts:96-152 | a 500 exactly on a query error; the reply says there is no quota exactly when the user has no row; otherwise each flag is `used >= limit` over this month's rows, which is the worker utility `isQuotaExceeded` of used and limit, and `anyExceeded` is their disjunction |
| UsageRoutes.ExceededMeansNothingRemains | worker/routes/usage.ts:74-84 | `isQuotaExceeded(used, limit)` holds for tokens, cost and requests exactly when the clamped remaining amount is 0 |
| UsageRoutes.History | worker/routes/usage.ts:160-174 | limit defaults to 50 and offset to 0; `hasMore` holds exactly when the rows returned number `limit` |
| Sse.CreateSSE | worker/lib/utils.ts:31-41 | the frame always ends with `\n\n` |
| Sse.CreateSSELines | worker/lib/utils.ts:31-41 | without newlines inside, the frame's lines are `event: e` only when `e` is truthy, then one `data: d` line, raw for a string and encoded otherwise |
| Sse.FrameTail | worker/lib/utils.ts:38 | a data line followed by `\n\n` splits into the line and two empty lines |
| Sse.ParseSSE | worker/lib/utils.ts:6-23 | the loop fills the same map as the fold over the trimmed message's lines |
| Sse.ParseLinesStep | worker/lib/utils.ts:10-20 | the fold processes the lines one at a time |
| Sse.ParsedFieldsNonEmpty | worker/lib/utils.ts:17-19 | only non-empty fields with non-empty values are stored, and no field is ever removed |
| Sse.LastValueWins | worker/lib/utils.ts:17-19 | a repeated field keeps its last value |
| Sse.FieldLine | worker/lib/utils.ts:11-19 | `field:value` stores the pair |
| Sse.SpacedFieldLine | worker/lib/utils.ts:14-15 | `field: value` stores the pair with the space trimmed away |
| Sse.RoundTrip | worker/lib/utils.ts:6-41 | `parseSSE(createSSE(e, d))` gives `{event: e, data: d}`, or `{data: d}` without an event, for non-empty single-line text with no surrounding whitespace |
| Sse.RoundTripWithEvent | worker/lib/utils.ts:31-41 | the round trip with an event name |
| Sse.RoundTripDataOnly | worker/lib/utils.ts:31-41 | the round trip without an event name |
| Sse.FrameBodyTrimmed | worker/lib/utils.ts:8 | trimming a frame removes only its final blank line |
| Sse.TwoLines | worker/lib/utils.ts:8-20 | an `event:` line then a `data:` line parse to both fields |
| Sse.TwoLineSplit | worker/lib/utils.ts:8 | those two lines split apart at the newline |
| Sse.ParseEventData | worker/lib/utils.ts:10-20 | the fold over those two lines stores both fields |
| Sse.IsQuotaExceeded | worker/lib/utils.ts:67-69 | true exactly when `used >= limit`, so reaching the limit counts; the server's `check-quota` flags are this same test (`UsageRoutes.CheckQuota`), and it holds exactly when the statistics show nothing remaining (`UsageRoutes.ExceededMeansNothingRemains`) |
| WorkerClient.CallWorker | src/lib/worker.ts:21-41 | a thrown fetch error is rethrown; a non-OK reply fails with the server's `error` or the default message; an OK reply gives its JSON |
| WorkerClient.ReadStreamSpec | src/lib/worker.ts:82-119 | the callbacks the reader makes, as a fold over the lines; `WorkerClient.ReadStream` proves the loops equal it, and `WorkerClient.ConsumeShape`, `WorkerClient.AtMostOneTerminal` and `WorkerClient.FramesRoundTrip` state its shape |
| WorkerClient.CreateWorkerStream | src/lib/worker.ts:52-132 | `createWorkerStream`: a non-OK response gives exactly one `onError` (`WorkerClient.FailedResponseOneError`); a thrown fetch gives one `onError` unless it is an abort, and a bodiless response the reader error; otherwise the reader's callbacks of `WorkerClient.ReadStreamSpec` |
| WorkerClient.ReadStream | src/lib/worker.ts:82-119 | the nested read/line loops make exactly the callbacks the line fold specifies |
| WorkerClient.ConsumeStep | src/lib/worker.ts:97-112 | the fold stops at a line that ends it, otherwise continues with the rest |
| WorkerClient.DispatchLines | src/lib/worker.ts:97-112 | the inner loop over one read's lines either stops with the fold's result or leaves the fold to continue with the later lines |
| WorkerClient.FailedResponseOneError | src/lib/worker.ts:71-74 | a non-OK response makes exactly one `onError` with the server's message, or the default when it has none |
| WorkerClient.AtMostOneTerminal | src/lib/worker.ts:84-113 | every callback but the last is `onMessage` |
| WorkerClient.ConsumeShape | src/lib/worker.ts:97-112 | starting from messages, a running fold holds only messages and a finished one adds exactly one terminal callback last |
| WorkerClient.ConsumeExtends | src/lib/worker.ts:97-112 | callbacks already made are never taken back |
| WorkerClient.EndStopsReading | src/lib/worker.ts:105-107 | an `event: end` line calls `onEnd` once, and the lines after it are never looked at |
| WorkerClient.EndLineNotData | src/lib/worker.ts:98-105 | an `event: end` line is never taken for a data line |
| WorkerClient.ErrorEventSkipped | src/lib/worker.ts:108-111 | an `event: error` line is skipped, so its data line reaches `onMessage` |
| WorkerClient.FramesRoundTrip | src/lib/worker.ts:96-107 | the route's `data:` frames followed by the end frame deliver every payload in order and then `onEnd` |
| WorkerClient.NoFrames | src/lib/worker.ts:105-107 | with no data frames the end frame alone gives `onEnd` |
| WorkerClient.OneFrame | src/lib/worker.ts:96-104 | the first frame delivers its payload and leaves the next frame first |
| WorkerClient.DataLineParsed | src/lib/worker.ts:98-100 | `data: <json>` is a data line whose tail is the JSON |
| WorkerClient.FrameLines | src/lib/worker.ts:96 | a frame splits into its line, an empty line and the rest |
| WorkerClient.EndFirst | src/lib/worker.ts:105-107 | the `event: end` line ends the fold with `onEnd` |
| WorkerClient.DataLineFirst | src/lib/worker.ts:98-101 | a parsed data line adds one `onMessage` |
| WorkerClient.EmptyLineFirst | src/lib/worker.ts:97-111 | an empty line changes nothing |
| ChatRoute.Validate | worker/routes/chat.ts:13-23 | the three 400 checks in order (messages, user id, session id); the request passes exactly when all three hold |
| ChatRoute.ModelFor | worker/routes/chat.ts:48-56 | `anthropic` selects Anthropic's default model, any other name OpenAI's |
| ChatRoute.Frames | worker/routes/chat.ts:59-61 | one frame per chunk |
| ChatRoute.StreamSpec | worker/routes/chat.ts:58-91 | the reply is a stream that sent the given messages under the model the provider name selects |
| ChatRoute.RunStream | worker/routes/chat.ts:58-91 | the callback loop with its mutable counters writes the specified frames and logs exactly the specified usage row |
| ChatRoute.ChatSpec | worker/routes/chat.ts:10-96 | the plain route's reply; `ChatRoute.HandleChat` proves the handler meets it, and `ChatRoute.BadRequestLogsNothing`, `ChatRoute.SuccessShape` and `ChatRoute.FailureShape` state what it holds |
| ChatRoute.HandleChat | worker/routes/chat.ts:10-96 | the handler's reply is the specified one, and the usage table grows by exactly the rows that reply logs |
| ChatRoute.BadRequestLogsNothing | worker/routes/chat.ts:13-23 | a rejected request is a 400 with its message, and nothing is logged |
| ChatRoute.SuccessShape | worker/routes/chat.ts:59-86 | on success: one `data:` frame per chunk in order, then `event: end`, then usage with the last usage-bearing chunk's counters |
| ChatRoute.FailureShape | worker/routes/chat.ts:87-91 | on a failure: the frames delivered so far, then one `event: error` frame with the message, and no usage |
| ChatRoute.FramesAt | worker/routes/chat.ts:61 | frame k is `data: <json of chunk k>\n\n` |
| ChatRoute.NoUsageZero | worker/routes/chat.ts:40-42 | with no usage-bearing chunk the counters stay 0 |
| ChatRoute.LastUsageWins | worker/routes/chat.ts:64-68 | the counters are those of the last usage-bearing chunk |
| ChatRoute.ProviderUsageIsLogged | worker/routes/chat.ts:64-86 | for a completed provider stream the logged counters are the final chunk's usage |
| ChatRoute.ProviderSelection | worker/routes/chat.ts:48-56 | a missing provider means `openai`; `anthropic` gets the Claude model and every other name `gpt-4o`; usage is logged under the request's name |
| ChatRoute.ChatSendsMessagesAsGiven | worker/routes/chat.ts:59 | the plain route sends the messages unaugmented and attaches no citations |
| RagChat.Relevant | worker/dist/routes/chat.js:37 | keeps at most all rows, each with similarity ≥ 0.7 |
| RagChat.RelevantIsSubsequence | worker/dist/routes/chat.js:37 | the filter keeps the store's order |
| RagChat.RelevantComplete | worker/dist/routes/chat.js:37 | no row at or above the threshold is dropped |
| RagChat.SearchDocuments | worker/dist/routes/chat.js:15-45 | `searchDocuments`; its contract is `RagChat.SearchContract` |
| RagChat.SearchContract | worker/dist/routes/chat.js:15-45 | at most `limit` rows, all at or above 0.7, a subsequence of the first `limit` rows of the query in order, keeping every one of those at or above 0.7; no embedding or a failed query gives `[]` |
| RagChat.LastUserContentIs | worker/dist/routes/chat.js:97-98 | the query is the content of the last user-role message |
| RagChat.NoUserMessage | worker/dist/routes/chat.js:98 | without a user-role message the query is `''` |
| RagChat.SystemPrompt | worker/dist/routes/chat.js:51-63 | the prompt is the fixed head, then the context section, then the fixed tail |
| RagChat.PromptMarkers | worker/dist/routes/chat.js:53-56 | the head ends with `RETRIEVED CONTEXT:` and the tail starts with `INSTRUCTIONS:` |
| RagChat.AugmentWithContext | worker/dist/routes/chat.js:46-72 | `augmentWithContext`; its contract is carried by `RagChat.AugmentShape`, `RagChat.AugmentIdempotent` and `RagChat.SystemPrompt` |
| RagChat.AugmentShape | worker/dist/routes/chat.js:46-72 | no context returns the messages unchanged; otherwise a leading system message is replaced (same length) or one is prepended (length + 1), with the rest unchanged |
| RagChat.AugmentIdempotent | worker/dist/routes/chat.js:64-70 | augmenting twice with the same context is augmenting once |
| RagChat.ContextNumbering | worker/dist/routes/chat.js:50 | blocks are `[Document N: title]\ncontent`, N from 1 in retrieval order, joined by a blank line |
| RagChat.Citations | worker/dist/routes/chat.js:114-119 | one citation per retrieved chunk in order: `doc`, its document id and title, page = chunk index + 1 (1 without one) |
| RagChat.Decorate | worker/dist/routes/chat.js:113-120 | the chunk is unchanged, and citations are attached exactly when context was retrieved and the content is non-empty |
| RagChat.FinalChunkUncited | worker/dist/routes/chat.js:113 | the final `done` chunk never gets citations |
| RagChat.RagSpec | worker/dist/routes/chat.js:73-148 | the retrieval route's reply; `RagChat.HandleRagChat` proves the handler meets it, and `RagChat.NoContextIsPlainChat` and `RagChat.ContextIsSentAndCited` state what it holds |
| RagChat.HandleRagChat | worker/dist/routes/chat.js:73-148 | the handler's reply is the specified one, and the usage table grows by exactly the rows that reply logs |
| RagChat.NoContextIsPlainChat | worker/dist/routes/chat.js:100-127 | when retrieval yields nothing, the route behaves exactly like the plain route |
| RagChat.ContextIsSentAndCited | worker/dist/routes/chat.js:97-127 | the provider gets the messages augmented with the search for the last user message (limit 5), and frames carry that search's citations |
| Sec.PadCik | worker/routes/sec.ts:26 | a query shorter than ten characters is left-padded with `0` to ten; a longer one is unchanged |
| Sec.FilingIndexUrlParts | worker/routes/sec.ts:92 | the URL is `base/Archives/edgar/data/{cik}/`, then the accession number with its dashes removed, then `/{accession}-index.html`; the middle directory has no dash |
| Sec.Selected | worker/routes/sec.ts:50-56 | only indices below the bound, each passing the form filter |
| Sec.CollectFilings | worker/routes/sec.ts:43-67 | the loop pushes exactly the entries at the selected indices, in order |
| Sec.SelectedIncreasing | worker/routes/sec.ts:50-67 | the selected indices strictly increase, so order is preserved |
| Sec.SelectedComplete | worker/routes/sec.ts:50-56 | no kept entry below the bound is dropped |
| Sec.NoFilterTakesAll | worker/routes/sec.ts:54 | without forms, all of the first `min(n, limit)` entries are taken |
| Sec.Search | worker/routes/sec.ts:17-82 | a missing query is a 400, a failed fetch a 404, a throw a 500; otherwise the company and the collected filings |
| Sec.SliceNoOp | worker/routes/sec.ts:75 | the final `slice(0, limit)` cuts nothing |
| Sec.SearchBound | worker/routes/sec.ts:50-75 | at most `limit` results and at most `n`, each of a requested form |
| Sec.SearchUrlIsFilingUrl | worker/routes/sec.ts:65 | a search entry's `documentUrl` is the URL `/filing` builds |
| Sec.AccessionDirectory | worker/routes/sec.ts:65 | `filer-year-serial` becomes `fileryearserial` |
| Sec.FilingDetails | worker/routes/sec.ts:87-104 | the filing URL when fetched, 404 when the fetch is not OK, 500 when it throws |
| Sec.AddToCorpus | worker/routes/sec.ts:137-185 | a missing field is a 400; a 200 only after a fetched document and a successful insert, holding the fetched content and the new id |
| Sec.CorpusRow | worker/routes/sec.ts:161-173 | the row `/add-to-corpus` inserts; its defaults are stated by `Sec.CorpusDefaults` |
| Sec.CorpusDefaults | worker/routes/sec.ts:166-172 | missing metadata stores `Unknown` form type and company name, the insert time as filing date and no report date |
| Sec.CorpusFetchFailure | worker/routes/sec.ts:152-154 | a failed document fetch is a 400 and nothing is stored |
| Sec.FindTicker | worker/routes/sec.ts:211-213 | the first entry whose ticker equals the upper-cased symbol, or none when no entry matches |
| Sec.Ticker | worker/routes/sec.ts:190-229 | a thrown fetch is a 500 with its message and a non-OK one a 500; with no match the reply is a 404; the first matching entry gives a 200 with that entry's `cik_str` padded to ten digits, its `title` and the upper-cased symbol; a 200 happens only then |
| Sec.TickerExample | worker/routes/sec.ts:211-223 | `aapl` finds `AAPL` and answers CIK `0000320193` |
| Middleware.AnyPrefix | src/middleware.ts:28-29 | true exactly when the path starts with some listed route |
| Middleware.Decide | src/middleware.ts:24-54 | the guard's decision; its contract is carried by `Middleware.PublicPassesThrough`, `Middleware.UnauthenticatedToLogin`, `Middleware.RoleDecides` and `Middleware.DashboardRedirectExactly` |
| Middleware.PublicPassesThrough | src/middleware.ts:31-53 | a path outside both lists passes whatever the cookie, without the verifier |
| Middleware.UnauthenticatedToLogin | src/middleware.ts:32-44 | on a guarded path a missing, empty or unverified token goes to `/login` |
| Middleware.RoleDecides | src/middleware.ts:47-53 | with a verified token an admin passes everywhere; any other role goes to `/dashboard` from an admin path and passes a protected path |
| Middleware.DashboardRedirectExactly | src/middleware.ts:47-50 | the `/dashboard` redirect happens exactly for a verified non-admin on an admin path |
| Middleware.PrefixNotSegment | src/middleware.ts:5-29 | matching is by prefix: `/security`, `/chatbot` and `/administrator` are guarded; `/`, `/login` and `/legal` are not |
| Middleware.NotGuarded | src/middleware.ts:5-22 | a path whose second character starts no listed route is public |
| Middleware.ApiNotGuarded | src/middleware.ts:5-22 | no protected or admin route is a prefix of a path under `/api`, so such paths are public |
| Middleware.MatcherExclusionsPass | src/middleware.ts:5-22 | the paths the matcher excludes (`/api/...`, `/_next/static/...`, `/_next/image`, `/favicon.ico`) are neither protected nor admin paths |
| Risk.CalculateRiskScore | src/app/risk/page.tsx:96-98 | for inputs in 1..5 the score is in 1..25 and at least each input |
| Risk.CalculateRiskClass | src/app/risk/page.tsx:100-105 | low exactly for ≤ 4, medium for 5..9, high for 10..16, critical above |
| Risk.ClassMonotone | src/app/risk/page.tsx:100-105 | the class never decreases as the score grows |
| Risk.RiskMatrix | src/app/risk/page.tsx:71-84 | the matrix is 5×5 |
| Risk.MatrixCell | src/app/risk/page.tsx:71-84 | cell `[i][j]` has score `(5-i)(j+1)` and the matrix's class of it |
| Risk.CellClassAgrees | src/app/risk/page.tsx:76-79 | the matrix's copy of the thresholds agrees with `calculateRiskClass` |
| Risk.MatrixMatchesSelection | src/app/risk/page.tsx:275-290 | the cell a selection highlights shows the current score and class |
| Risk.MatrixCorners | src/app/risk/page.tsx:71-84 | top right is 25 critical, bottom left 1 low |
| Risk.MatrixMonotone | src/app/risk/page.tsx:71-84 | severity grows to the right and upwards |
| Risk.LegendAgrees | src/app/risk/page.tsx:298-314 | a score lies in its class's legend range and in no other |
| Risk.Generate | src/app/risk/page.tsx:145-154 | an empty name is an error and changes nothing; otherwise the assessment is marked generated |
| Risk.Save | src/app/risk/page.tsx:156-163 | never changes the state; succeeds exactly after a generate |
| Risk.SelectCell | src/app/risk/page.tsx:285-288 | a click selects probability `5-i` and impact `j+1`, in range and matching the cell's score |
| Risk.SaveNeedsGenerate | src/app/risk/page.tsx:145-163 | from the start a save is refused; after generating with a name it succeeds |
| DraftEmail.EmailPatternIff | src/app/draft-email/page.tsx:77 | the regex matches exactly the addresses the validity check accepts |
| DraftEmail.ValidMatches | src/app/draft-email/page.tsx:77 | an accepted address matches the regex |
| DraftEmail.MatchesValid | src/app/draft-email/page.tsx:77 | a regex match is accepted |
| DraftEmail.AcceptedIsTrimmed | src/app/draft-email/page.tsx:77-83 | a matching address is non-empty and its own trim |
| DraftEmail.AcceptedSplit | src/app/draft-email/page.tsx:122 | a matching address splits on `@` into its local part and its domain |
| DraftEmail.EmailExamples | src/app/draft-email/page.tsx:77 | `a@b.c` is valid; `a@bc`, `@b.c` and `a@b@c.d` are not |
| DraftEmail.AddRecipient | src/app/draft-email/page.tsx:73-85 | `handleAddRecipient`; its contract is `DraftEmail.AddRecipientSpec`, with `DraftEmail.AddKeepsAccepted` |
| DraftEmail.AddRecipientSpec | src/app/draft-email/page.tsx:73-85 | the list grows by the typed address and the input clears exactly when it is valid; otherwise nothing changes; an error toast appears exactly for non-blank invalid input |
| DraftEmail.AddKeepsAccepted | src/app/draft-email/page.tsx:73-85 | the list holds only valid addresses after an add |
| DraftEmail.KeyDown | src/app/draft-email/page.tsx:93-98 | `handleKeyDown`; its contract is `DraftEmail.EnterIsAdd` |
| DraftEmail.EnterIsAdd | src/app/draft-email/page.tsx:93-98 | Enter acts as the add button |
| DraftEmail.SpliceStart | src/app/draft-email/page.tsx:89 | the splice start lies within the list |
| DraftEmail.RemoveRecipient | src/app/draft-email/page.tsx:87-91 | `handleRemoveRecipient`; its contract is carried by `DraftEmail.RemoveDeletesThatOne`, `DraftEmail.RemoveOutOfRange` and `DraftEmail.RemoveKeepsAccepted` |
| DraftEmail.RemoveDeletesThatOne | src/app/draft-email/page.tsx:87-91 | removing index k deletes exactly that element, keeping the others in order |
| DraftEmail.RemoveOutOfRange | src/app/draft-email/page.tsx:87-91 | an index past the end removes nothing; a negative index counts from the end, and one below minus the length removes the first |
| DraftEmail.RemoveKeepsAccepted | src/app/draft-email/page.tsx:87-91 | a removal keeps the list valid |
| DraftEmail.GreetingIsLocalPart | src/app/draft-email/page.tsx:122 | the greeting name is the first recipient's part before `@` |
| DraftEmail.GreetingWithoutRecipients | src/app/draft-email/page.tsx:122 | with no recipient it is `Recipient` for the formal tone and `there` otherwise |
| DraftEmail.DraftLayout | src/app/draft-email/page.tsx:120-186 | the draft is greeting, lead, subject, context, closing and signature in that order |
| DraftEmail.Generate | src/app/draft-email/page.tsx:100-195 | `handleGenerateEmail`; its contract is carried by `DraftEmail.GenerateSpec` and `DraftEmail.DraftLayout` |
| DraftEmail.GenerateSpec | src/app/draft-email/page.tsx:100-195 | generation succeeds exactly with a non-blank subject and context; otherwise the subject error comes first and nothing changes |
| DraftEmail.SaveEmail | src/app/draft-email/page.tsx:197-205 | `handleSaveEmail`; its contract is carried by `DraftEmail.DraftActionsNeedDraft` and `DraftEmail.GenerateEnablesActions` |
| DraftEmail.ExportEmail | src/app/draft-email/page.tsx:207-215 | `handleExportEmail`; its contract is carried by `DraftEmail.DraftActionsNeedDraft` and `DraftEmail.ExportNames` |
| DraftEmail.CopyToClipboard | src/app/draft-email/page.tsx:217-225 | `handleCopyToClipboard`; its contract is carried by `DraftEmail.DraftActionsNeedDraft` and `DraftEmail.GenerateEnablesActions` |
| DraftEmail.DraftActionsNeedDraft | src/app/draft-email/page.tsx:197-225 | save, export and copy fail exactly without a draft, the copy writing nothing |
| DraftEmail.ExportNames | src/app/draft-email/page.tsx:207-215 | the export toast names the format in upper case |
| DraftEmail.GenerateEnablesActions | src/app/draft-email/page.tsx:188-225 | after a successful generate, save, export and copy succeed, the copy writing the draft |
| Ingest.ParseDataUrl | worker/routes/ingest.ts:33 | the data-URL match; its contract is carried by `Ingest.ParseDataUrlSound` and `Ingest.ParseDataUrlComplete` |
| Ingest.ParseDataUrlSound | worker/routes/ingest.ts:33 | a parsed data URL matches `^data:([^;]+);base64,(.+)$` with those groups |
| Ingest.ParseDataUrlComplete | worker/routes/ingest.ts:33 | every match is found, with its groups |
| Ingest.ReadUpload | worker/routes/ingest.ts:31-55 | accepted exactly for a non-empty data field that parses as a data URL, else the bad-file or bad-data error; the media type is non-empty and the bytes are the base64 decoding of the payload |
| Ingest.ExtractText | worker/routes/ingest.ts:60-69 | only `text/plain` is decoded; PDF gets its own 400 |
| Ingest.Prepare | worker/routes/ingest.ts:15-69 | a missing file, then a missing user id, are rejected first; an accepted upload is plain text |
| Ingest.SentencesHaveNoBreak | worker/routes/ingest.ts:86 | no sentence contains a punctuation-then-space break |
| Ingest.NoBreakOneSentence | worker/routes/ingest.ts:86 | a text without a break is one sentence |
| Ingest.KeepNonBlank | worker/routes/ingest.ts:86 | only pieces with a non-space character remain |
| Ingest.KeepAllNonBlank | worker/routes/ingest.ts:86 | non-blank pieces are all kept |
| Ingest.GroupTextNonEmpty | worker/routes/ingest.ts:91-92 | a group starting with a non-blank sentence has non-empty text |
| Ingest.ChunksFromCount | worker/routes/ingest.ts:90-105 | for non-blank sentences, the chunk count from sentence i is `ceil(remaining sentences / 3)` |
| Ingest.ChunksFromAt | worker/routes/ingest.ts:90-105 | chunk k covers the group starting at sentence 3k |
| Ingest.ChunkAtShape | worker/routes/ingest.ts:91-102 | the chunk text is the trimmed `". "`-join of sentences `[3k, 3k+3)`; `page = k+1`, `start = 3k`, `end = min(3k+2, n-1)`, `sentence_range = [start, end]`, `tokenCount = ceil(len/4)` |
| Ingest.BuildChunks | worker/routes/ingest.ts:88-105 | the push loop yields the chunk list the grouping defines |
| Ingest.ChunksLayout | worker/routes/ingest.ts:86-105 | `ceil(n/3)` chunks, chunk k of the group at 3k with the shape above |
| Ingest.EmbedChunks | worker/routes/ingest.ts:110-119 | every chunk is kept with its other fields unchanged; only a chunk whose embedding fails lacks one |
| Ingest.ChunksOfShape | worker/routes/ingest.ts:86-105 | the document's chunk count is `ceil(sentences/3)`, all pointing at the document |
| Ingest.Outcome | worker/routes/ingest.ts:13-145 | the specified result of `/ingest/process`; `Ingest.Process` proves the handler meets it, and `Ingest.RejectedBeforeWrite`, `Ingest.OnlyPlainTextIsStored`, `Ingest.SuccessfulIngest` and `Ingest.FailureLeavesProcessing` state what it holds |
| Ingest.Process | worker/routes/ingest.ts:13-145 | the handler's response and tables are the specified outcome; the usage and quota tables are unchanged |
| Ingest.FindDocument | worker/routes/ingest.ts:154-158 | found exactly for a stored id, and then a stored row with that id |
| Ingest.CountChunks | worker/routes/ingest.ts:164-167 | at most the number of chunks |
| Ingest.CountChunksAppend | worker/routes/ingest.ts:164-167 | counts add over concatenation |
| Ingest.CountChunksAll | worker/routes/ingest.ts:164-167 | rows all of the document count fully |
| Ingest.CountChunksNone | worker/routes/ingest.ts:164-167 | rows of other documents count 0 |
| Ingest.Status | worker/routes/ingest.ts:150-183 | 404 exactly when the lookup succeeds and finds no document; a found reply has the id and `chunkCount` = the number of its chunks |
| Ingest.RejectedBeforeWrite | worker/routes/ingest.ts:17-69 | a 400 happens exactly when the checks fail, and then no table changes |
| Ingest.OnlyPlainTextIsStored | worker/routes/ingest.ts:60-83 | a write happens only for an accepted plain-text upload |
| Ingest.Store | worker/routes/ingest.ts:72-139 | the writes after validation; its contract is carried by `Ingest.StoreSuccess` |
| Ingest.StoreSuccess | worker/routes/ingest.ts:72-139 | on success: the new document is completed with `processedAt`, holds all the chunks, and `chunksCreated` is their number |
| Ingest.SuccessfulIngest | worker/routes/ingest.ts:71-139 | a 200 means one new completed document and `ceil(sentences/3)` new chunks |
| Ingest.FailureLeavesProcessing | worker/routes/ingest.ts:141-144 | a 500 after the insert leaves the document `processing` |
| Ingest.IngestThenStatus | worker/routes/ingest.ts:134-177 | after a successful ingestion `/status` finds the document, completed, with `chunksCreated` chunks |
| Ingest.DocumentAfterSuccess | worker/routes/ingest.ts:154-158 | the lookup finds the newly appended document |
| Schema.MarkCompleted | worker/routes/ingest.ts:127-132 | only the matching document becomes `completed` with `processedAt`; the others are unchanged |
| Schema.Database.InsertDocument | worker/routes/ingest.ts:74-83 | appends the row, or fails on a fault or a duplicate id and changes nothing; other tables unchanged |
| Schema.Database.InsertChunks | worker/routes/ingest.ts:122-124 | appends all rows, or none on a fault or a chunk naming no stored document; other tables unchanged |
| Schema.Database.SetCompleted | worker/routes/ingest.ts:127-132 | applies the status update, or changes nothing on a fault |
| Schema.Database.InsertUsage | worker/lib/usage.ts:102-112 | appends one usage row, or none on a fault |

## Left out

- Client disconnect (`req.on('close')` in both chat routes) is not modelled. It races with the provider callback, and the code does not stop writing or logging after it.
- Base64 and UTF-8 decoding, `JSON.stringify`/`JSON.parse`, the embedding model, the pgvector similarity query, the LLM SDK streams and `fetch` are parameters (oracles), not implementations.
- WorkerClient.CallWorker: assumes every reply body parses as JSON. In the code, a body that is not JSON makes `response.json()` reject, and that parse error is thrown instead of the server's `error` field or the default message; the same holds for the failed-response path of the stream reader.
- Similarity search is not restricted in the model to chunks that have embeddings: the SQL query is an oracle.
- Only the result of `chunkIndex || 0` is modelled. A chunk index of `null` reads as 0, and other falsy values do not arise for an integer column.
- The `|| 0` on usage fields in both chat routes is not modelled. A usage object always carries all three counts, so `|| 0` only changes a `NaN` or missing field.
- Counting characters uses `seq<char>` length. The code's `.length` counts UTF-16 code units, which differ for characters outside the Basic Multilingual Plane.
- The client's reads are given as a list of decoded text pieces, each split on `\n` on its own, as the code does. A line cut by a read boundary is seen as two lines, in both the client reader and Perplexity's stream fold.
- Common.ToUpperAscii: upper-cases ASCII letters only, whereas `toUpperCase` also maps non-ASCII letters.
- Sec.Ticker: treats `cik_str` as a string, as the code's `padStart` call assumes. `company_tickers.json` actually carries a number there, on which `padStart` would throw.
- The HTML regex that lists a filing's documents in `/sec/filing` is left out. It is a regex scan over fetched HTML, so `Sec.FilingDetails` states only the URL and the error replies.
- Sec.AddToCorpus: the inserted row is returned as a value rather than written to a table, because `sec_filings` is not read by any modelled route.
- Perplexity.CalculateCost: charges the `sonar` rate for every unknown model name. In JavaScript, `pricing[model] || pricing['sonar']` finds an inherited function for a name like `toString` or `constructor`, and the cost becomes `NaN`; the typed callers pass only the three model names.
- Perplexity.CostRule: states the `sonar` fallback for every unknown name, for the same reason; the inherited-name `NaN` case is not modelled.
- PRICING lookups by names that are inherited object properties (such as `constructor`), and by a provider called `default`, are left out. They resolve to non-price objects in JavaScript; the model treats every unlisted name as unlisted.
- `trackUsage`, which Perplexity imports from a module that does not export it, is modelled as a sink: its calls are returned as a list.
- Money is exact `real` arithmetic, not IEEE doubles. Rounding of costs is not modelled.
- Ids are opaque strings. `uniqueId` produces base-36 text while the schema declares `documents.id` and the chunk ids as `uuid` columns; whether the database accepts such an id is not modelled, so a rejected insert appears only as the document insert fault of `Schema.Database.InsertDocument`.
- `formatBytes`, `timestamp` and `uniqueId` use floating point, the clock and randomness. They are left out; ids and times are parameters.
- `createHmacSignature`, token verification, cookies and JWTs are foreign calls. `verifyToken` is a parameter of the guard.
- The matcher configuration of the middleware, which keeps the guard off `api`, static files, `/login`, `/legal` and `/`, is left out. `Middleware.PrefixNotSegment`, `Middleware.MatcherExclusionsPass` and `Middleware.ApiNotGuarded` show the guard itself already lets `/`, `/login`, `/legal`, `/api/...`, the `_next` static and image paths and `/favicon.ico` pass.
- The draft-email page's 2-second delay, its `isGenerating` flag and its unreachable `catch` branch are left out. So are all rendering, JSX and toast display; a toast is returned as a value.
- The risk page's mock risk factors and clause suggestions are static data and are left out.
- The `/stt`, `/tts` and `/export` routes return 501 and hold no logic. They are not part of this model.
- The front-end pages other than the risk and draft-email rules are not part of this model.
