# Prism Pipe: a verified model

Prism Pipe is a gateway in front of AI providers. A request passes rate limiting and a
middleware pipeline, is translated between wire formats, is sent through a fallback chain
guarded by circuit breakers, may be split into a chain of steps or a tool conversation, and
its answer is streamed back as server-sent events and accounted for. This project models
the algorithms underneath and proves what they keep over every run.

Code that changes state is modelled by classes and loops, each method proved against a pure
function of the old state; the run-level results are lemmas about those functions.

| Files | Part of the repository |
|---|---|
| `CircuitBreakers`, `CircuitBreakerHistory` | the breaker, its registry, and what its counters mean over a history of interleaved calls |
| `FallbackChains` | the nested retry loop under a deadline, with other requests using the same breakers |
| `TokenBuckets`, `TokenBucketRuns` | the bucket over the expiring store, and bounds over every run |
| `IpPools`, `IpPoolFairness` | egress IP selection and its exact fairness |
| `Texts`, `Sse`, `SseEvents`, `StreamChunks`, `SseRoundTrip` | the stream parser, the stream writer, the chunk transformers, what any line or chunk means, and their round trip |
| `Json`, `Canonical` | what the formats share: JSON values, canonical requests, data URLs |
| `OpenAiRequests`, `OpenAiClients`, `OpenAiRoundTrip`, `OpenAiExactness` | the OpenAI request transformer: what any client's body is read as, and round trips |
| `AnthropicRequests`, `AnthropicClients`, `AnthropicRoundTrip` | the Anthropic request transformer, likewise |
| `Pipelines`, `RequestLoggers`, `Timeouts` | the onion pipeline, the batched logger, the timeout budget |
| `Templates`, `ChainComposers`, `ChainResults`, `ToolRouters` | composition of several model calls |
| `Filters`, `MemoryLogs`, `Ledger` | the in-memory log store, and usage and cost accounting |

Conventions. Time is an integer number of milliseconds and never runs back; token levels,
rates and costs are reals. What the model cannot see is a parameter: clock readings, random
draws, the outcomes of provider calls, what other requests do while this one waits, and
`JSON.stringify`/`JSON.parse`, of which `Json.Lawful` asks that parsing undoes printing and
that printed JSON has no raw newline. A provider call is its outcome.

## Where the code and its intent differ

The code is followed in every case, and a lemma shows the difference.

- `reset` on a closed breaker is no transition, so it keeps the failures counted so far
  (`ResetForgetsExactly`, `ResetKeepsFailures`).
- A probe slot of a half-open breaker is lost when the deadline passes between the breaker's
  answer and the first attempt; with one slot the breaker then refuses everything until
  someone else reports on it (`VisitProvider` says exactly when, `LeakedProbeBlocks`,
  `LeakedProbe`).
- Retries do not ask the breaker again and go on after it has opened
  (`RetriesIgnoreOpenBreaker` says exactly which, `RetriedOnOpenBreaker`).
- The rate bound over windows needs a bucket that can refill within the store's lifetime of
  an entry, and fails exactly when it cannot (`WindowBound`, `WindowBoundNeedsRefill`).
- Tool messages in OpenAI format are read twice, and an assistant message of tool calls alone
  is lost or joins the assistant message before it (`ToolMessagesAreReadTwice`,
  `BareToolCallsAreLostOrMerged`).
- The Anthropic round trip takes known keys out of the extras: a `system` there that is no
  string but prints as nothing (an empty array, say) makes a second round trip differ from
  the first, and nothing else does (`Idempotent`, `BlankSystemHappens`).
- The writer ends an Anthropic stream with an empty object, which the parser ignores, so the
  final `done` does not come back (`AnthropicLosesDone`, `AnthropicRoundTripExact`).
- The `fail` and `partial` policies of a chain give the same result, and `fail` still returns
  when an earlier step succeeded (`PartialIsFail`, `FailStillReturns`).
- When a store write fails, the rest of its batch is dropped; `close` does not wait for
  batches already in flight (`FailureLosesTheRest`, `CloseDrainsExactly`,
  `CloseLeavesBatchInFlight`).
- The comment on `limit` in `src/store/interface.ts:81` promises a default of 100; the memory
  store has none, and takes a `limit`, `offset`, `since` or `until` of 0 as not given
  (`NoDefaultLimit`, `ZeroIsNotGiven`).

## Model

| member | source | states |
|---|---|---|
| CircuitBreakers.CircuitBreaker.GetState | src/fallback/circuit-breaker.ts:44-50 | an open breaker whose timeout has passed becomes half-open when looked at; the new state is the specification's |
| CircuitBreakers.CircuitBreaker.AllowRequest | src/fallback/circuit-breaker.ts:56-70 | the answer, and the slot it takes, as the history of calls determines them |
| CircuitBreakers.CircuitBreaker.RecordSuccess | src/fallback/circuit-breaker.ts:73-83 | the state after a success report |
| CircuitBreakers.CircuitBreaker.RecordFailure | src/fallback/circuit-breaker.ts:86-96 | the state after a failure report |
| CircuitBreakers.CircuitBreaker.ResetBreaker | src/fallback/circuit-breaker.ts:99-101 | the state after a manual reset |
| CircuitBreakers.CircuitBreaker.Transition | src/fallback/circuit-breaker.ts:103-126 | the counters after each transition; none when the state does not change |
| CircuitBreakers.CircuitBreakerRegistry.Get | src/fallback/circuit-breaker.ts:140-147 | each provider's breaker is created at most once and all histories stay as they are |
| CircuitBreakers.CircuitBreakerRegistry.Apply | src/fallback/circuit-breaker.ts:132-158 | a call on one provider extends that provider's history and leaves every other provider's alone |
| CircuitBreakers.CircuitBreakerRegistry.IsAvailable | src/fallback/circuit-breaker.ts:150-152 | the answer is the one the provider's own history determines |
| CircuitBreakerHistory.OpensExactly | src/fallback/circuit-breaker.ts:85-96 | a closed breaker opens exactly at the failure that makes failureThreshold in a row since the last close or success |
| CircuitBreakerHistory.ClosesExactly | src/fallback/circuit-breaker.ts:73-80 | a half-open breaker closes exactly at the success that makes halfOpenRequests of them without a failure, or at a reset |
| CircuitBreakerHistory.ProbeSlots | src/fallback/circuit-breaker.ts:63-67 | the slots taken are the requests allowed since the breaker became half-open |
| CircuitBreakerHistory.AnswersExactly | src/fallback/circuit-breaker.ts:56-70 | when a request is allowed, in each state, in terms of the history |
| CircuitBreakerHistory.NothingAllowedEarly | src/fallback/circuit-breaker.ts:44-62 | between opening and openedAt + resetTimeoutMs nothing is allowed, unless the breaker is reset |
| CircuitBreakerHistory.StaysOpen | src/fallback/circuit-breaker.ts:44-50 | until that time the breaker remembers when it opened and stays open |
| CircuitBreakerHistory.LeavesOpenExactly | src/fallback/circuit-breaker.ts:44-101 | an open period ends by a reset, which closes, or by a look after the timeout, which makes half-open; no report ends it or moves its clock |
| CircuitBreakerHistory.ProbeBound | src/fallback/circuit-breaker.ts:44-126 | from opening at t0 until it closes, at most halfOpenRequests × ⌊(t − t0) / resetTimeoutMs⌋ requests are allowed by t, for every interleaving |
| CircuitBreakerHistory.UnreportedProbesBlockForever | src/fallback/circuit-breaker.ts:63-69 | once all slots are taken and nobody reports or resets, no later request is allowed |
| CircuitBreakerHistory.ResetForgetsExactly | src/fallback/circuit-breaker.ts:99-105 | a reset forgets the failures counted so far if and only if the breaker is not closed or has none to forget; on a closed breaker it changes nothing |
| CircuitBreakerHistory.ResetKeepsFailures | src/fallback/circuit-breaker.ts:99-105 | an example: one failure, a reset and another failure open a breaker of threshold two |
| FallbackChains.RetryableExactly | src/proxy/provider.ts:39-94 | the outcomes that are retried: network errors, timeouts, status 429 and 500 or more |
| FallbackChains.World.IsAvailable | src/fallback/chain.ts:57-61 | asking a provider's breaker is one logged call; without breakers every provider is available |
| FallbackChains.RegistryFollowsLog | src/fallback/circuit-breaker.ts:132-158 | a registry of real breaker objects that makes the calls of a log holds each provider's calls and gives every answer the log gives |
| FallbackChains.Attempt | src/fallback/chain.ts:65-115 | one attempt: no call exactly if the deadline has come, one report for a call, a backoff that never asks to pass the deadline; with a punctual call and backoff, time passes the deadline by computing only |
| FallbackChains.TryProvider | src/fallback/chain.ts:65-116 | at most maxRetries + 1 calls, all but the last of them retryable failures, each failure recorded once; no call exactly if none is allowed or the deadline has come |
| FallbackChains.VisitProvider | src/fallback/chain.ts:54-116 | a provider is called only if its breaker allows it; an allowed visit makes no call, and so never reports back, if and only if no attempt is allowed or the deadline has come when the clock is next read |
| FallbackChains.ExecuteFallbackChain | src/fallback/chain.ts:38-128 | the run is a valid one: providers in order, the first response returned, the errors and breaker calls exactly those of the visits; if every call ends by the deadline and no backoff oversleeps, the chain ends by the deadline but for the time it spends computing |
| FallbackChains.FirstResponseWins | src/fallback/chain.ts:86-88 | the chain succeeds exactly if some call responded; that call is the last, and its response is the result |
| FallbackChains.FailuresReportedOnce | src/fallback/chain.ts:89-96 | the failures told to the breakers are the errors recorded, one for one and in order |
| FallbackChains.ErrorIsTabled | src/proxy/provider.ts:39-94 | the code and status of each failed call, as a table: 401 and 403 auth, 429 rate_limit, 503 and 529 overloaded, and so on; 504 for a timeout, 502 for the network |
| FallbackChains.LastFailureIsThrown | src/fallback/chain.ts:119-127 | a chain that fails throws the code and status of the last call made over all providers, or ("server_error", 502) if none was, never to be retried |
| FallbackChains.WinnerIsNamed | src/fallback/chain.ts:87-88 | a chain that succeeds names the provider visited last, whose last call gave the response |
| FallbackChains.AllErrorsAt | src/fallback/chain.ts:89-96 | while nobody responds, error i is the one outcome i stands for |
| FallbackChains.ReportsAt | src/fallback/chain.ts:87-95 | call i of a visit is told to the breaker, as a success exactly if it responded |
| FallbackChains.BackoffExactly | src/fallback/chain.ts:111-114 | a call is followed by a backoff exactly if it may be retried and attempts remain; it lasts baseBackoffMs × 2^attempt, or the time left if that is less |
| FallbackChains.Pow2Adds | src/fallback/chain.ts:112 | that power is the one of two: 2^1 is 2 and powers multiply |
| FallbackChains.LeakedProbeBlocks | src/fallback/chain.ts:58-66 | a probe let through that makes no call leaves a one-slot breaker refusing everything |
| FallbackChains.LeakedProbe | src/fallback/chain.ts:58-66 | a run in which it happens: the deadline falls between the breaker's answer and the first attempt |
| FallbackChains.RetriesIgnoreOpenBreaker | src/fallback/chain.ts:65-95 | with nobody else on the breaker, call k of a visit is made while the breaker is open if and only if the k failures before it reach what the breaker tolerated when the visit began, be it closed, half-open or open |
| FallbackChains.RetriedOnOpenBreaker | src/fallback/chain.ts:65-95 | a run in which it happens: the second call of one visit is made on an open breaker |
| TokenBuckets.RateLimitStore.RateLimitGet | src/store/memory.ts:28-35 | an expired or missing entry is deleted and reported missing |
| TokenBuckets.RateLimitStore.RateLimitSet | src/store/memory.ts:37-39 | the entry is kept until now + ttl |
| TokenBuckets.TokenBucket.Create | src/rate-limit/token-bucket.ts:22-32 | construction throws exactly when capacity or refill rate is not positive |
| TokenBuckets.TokenBucket.Check | src/rate-limit/token-bucket.ts:34-75 | the reply and the new store contents, and that no other key changes |
| TokenBucketRuns.CheckSound | src/rate-limit/token-bucket.ts:47-74 | the level stays between 0 and capacity, and a check is admitted exactly if the level at that moment covers its cost |
| TokenBucketRuns.ReplyExactly | src/rate-limit/token-bucket.ts:47-74 | an admission takes its cost and reports the whole tokens left; a denial takes nothing and reports none; the limit is the capacity |
| TokenBucketRuns.FlowsIn | src/rate-limit/token-bucket.ts:47-49 | in ms milliseconds refillRate × ms / 1000 tokens flow in; the refill condition, in the same units |
| TokenBucketRuns.LevelRises | src/rate-limit/token-bucket.ts:47-51 | untouched, the level rises at the refill rate up to capacity, whether or not the store forgets the entry |
| TokenBucketRuns.WindowBound | src/rate-limit/token-bucket.ts:34-75 | in every run and every window, the cost admitted for a key is at most capacity + refillRate × seconds, across expiry |
| TokenBucketRuns.WindowBoundNeedsRefill | src/store/memory.ts:28-39 | without a bucket that refills within the entry's lifetime, two checks exceed that bound |
| TokenBucketRuns.ForgettingUnnoticed | src/store/memory.ts:28-39 | the bucket over the expiring store answers like one that never forgets |
| TokenBucketRuns.DeniedChecksUnnoticed | src/rate-limit/token-bucket.ts:65-74 | a denied check changes no later answer |
| TokenBucketRuns.WaitForIsLeast | src/rate-limit/token-bucket.ts:66 | the ceiling is the least whole number of milliseconds in which the missing tokens flow in |
| TokenBucketRuns.RetryAfterIsLeast | src/rate-limit/token-bucket.ts:65-74 | after a denial the same check succeeds after ms milliseconds if and only if ms ≥ retryAfterMs and its cost fits the capacity |
| TokenBucketRuns.ResetAtIsWhenFull | src/rate-limit/token-bucket.ts:53-62 | after an admission the bucket, left alone, is full exactly from resetAt on |
| TokenBucketRuns.DeniedResetAt | src/rate-limit/token-bucket.ts:38-45 | a denial repeats the reset time of the admission before it, or of a new bucket names when an empty one would be full |
| IpPools.IpPool.GetCandidates | src/network/ip-pool.ts:130-135 | the candidates of a provider in pool order |
| IpPools.CandidatesExactly | src/network/ip-pool.ts:130-135 | exactly the IPs that serve the provider, in order and once each |
| IpPools.ServesUnlessBarred | src/network/ip-pool.ts:130-135 | an IP serves every provider but one that is named and missing from its non-empty list |
| IpPools.IpPool.LeastRecentlyUsedOf | src/network/ip-pool.ts:151-159 | the loop finds the specification's oldest member |
| IpPools.OldestIsOldest | src/network/ip-pool.ts:151-159 | no member was used earlier, and every member before it was used later |
| IpPools.IpPool.WalkWeights | src/network/ip-pool.ts:166-176 | the walk over the weights stops at the member the specification picks |
| IpPools.IpPool.SelectByStrategy | src/network/ip-pool.ts:137-182 | the pick, the counters and the random draws left after it, for every strategy |
| IpPools.IpPool.SelectIp | src/network/ip-pool.ts:67-88 | the pick, its use count and time, and the cleared limits, as a function of the old pool |
| IpPools.IpPool.MarkRateLimited | src/network/ip-pool.ts:106-112 | the first IP with the address is limited until now + duration; nothing else changes |
| IpPools.IpPool.ClearRateLimit | src/network/ip-pool.ts:117-123 | the first IP with the address is no longer limited |
| IpPoolFairness.PrefersHealthy | src/network/ip-pool.ts:67-88 | any selection serves the provider, and is not rate-limited unless every candidate still is |
| IpPoolFairness.PickedExactly | src/network/ip-pool.ts:161-177 | a member is picked exactly for the counter residues in its share of the total weight |
| IpPoolFairness.WeightedFair | src/network/ip-pool.ts:161-177 | any total-weight many consecutive selections, from any counter value, pick each IP exactly its weight times |
| IpPoolFairness.RoundFair | src/network/ip-pool.ts:142-146 | any n consecutive selections over n IPs pick each once |
| IpPoolFairness.LruFair | src/network/ip-pool.ts:151-159 | n consecutive selections under a clock past every earlier use pick each of n IPs once |
| IpPoolFairness.UnweightedFair | src/network/ip-pool.ts:161-177 | without weights, weighted round robin picks each of n IPs once in n selections |
| IpPoolFairness.LoneOrWeightless | src/network/ip-pool.ts:137-164 | a lone candidate is picked and moves no counter; weights that add up to nothing pick the first |
| IpPoolFairness.RandomDraws | src/network/ip-pool.ts:148-149 | a random selection takes one draw, and every candidate can be drawn |
| Sse.TakeLines | src/proxy/provider.ts:212-236 | the line loop adds the chunks the lines mean, up to `[DONE]` |
| Sse.ParseSSE | src/proxy/provider.ts:198-238 | for every way of cutting the text into network pieces, the chunks are those of a one-shot reading of its complete lines |
| Texts.CutIsWhole | src/proxy/provider.ts:208-210 | lines and carry-over together are the text, and no line holds a newline |
| Texts.CutAppend | src/proxy/provider.ts:208-210 | cutting the carry-over with the next piece continues cutting the whole text |
| Texts.TrimExactly | src/proxy/provider.ts:213 | trimming takes blanks off both ends, nothing else, until neither end is blank |
| Texts.SpacesExactly | src/proxy/provider.ts:213 | which characters are blank |
| Sse.NothingAfterDone | src/proxy/provider.ts:218-221 | once `[DONE]` was read, later pieces cannot matter |
| SseEvents.SilentLines | src/proxy/provider.ts:213-216 | a line that does not begin with "data: " says nothing |
| SseEvents.DataLines | src/proxy/provider.ts:216-235 | a data line gives what its payload decodes to, "[DONE]" ends the stream, and what does not decode is skipped |
| Sse.WriteEvent | src/proxy/stream.ts:25-53 | the characters sent for a chunk are its event's lines |
| Sse.WriteSSEStream | src/proxy/stream.ts:8-58 | the body, and the last usage reported, up to the first done or error chunk |
| SseEvents.LastUsageReturned | src/proxy/stream.ts:18-57 | the usage returned is that of the last chunk that reports any before the first done or error, if one does |
| SseEvents.EndedExactly | src/proxy/stream.ts:25-38 | the stream has ended exactly if a chunk was done or an error |
| SseEvents.ErrorEventCarries | src/proxy/stream.ts:34-38 | an error event carries the message, and the code if there is one |
| SseEvents.EventNamesPayload | src/proxy/stream.ts:45-48 | an Anthropic event is named after the type of its payload |
| StreamChunks.OpenAiEchoes | src/proxy/transforms/openai.ts:314-389 | every printed OpenAI chunk reads back as what the format has room for |
| StreamChunks.AnthropicEchoes | src/proxy/transforms/anthropic.ts:269-346 | the same for Anthropic chunks; usage is never printed |
| StreamChunks.AnthropicUsageReads | src/proxy/transforms/anthropic.ts:300-310 | every message_delta is read as its input and output counts, missing ones as 0, and their sum |
| StreamChunks.AnthropicDeltaReads | src/proxy/transforms/anthropic.ts:274-289 | every content_block_delta: text and thinking are text, input JSON is a piece of a tool call, anything else is dropped |
| StreamChunks.AnthropicStartReads | src/proxy/transforms/anthropic.ts:290-299 | every content_block_start: a tool call gives its id and name, anything else is dropped |
| StreamChunks.AnthropicOthersRead | src/proxy/transforms/anthropic.ts:311-318 | message_stop is done, and every type but these four is dropped |
| StreamChunks.MissingFieldsRead | src/proxy/transforms/anthropic.ts:276-295 | a missing text, id or name is read as "undefined" |
| StreamChunks.OpenAiTextReads | src/proxy/transforms/openai.ts:337-340 | a first choice with text is read as that text, whatever else the chunk holds |
| StreamChunks.OpenAiCallReads | src/proxy/transforms/openai.ts:341-352 | one without text but with tool calls is read as the first of them, its empty fields as missing |
| StreamChunks.OpenAiOthersRead | src/proxy/transforms/openai.ts:354-355 | one with neither is dropped |
| StreamChunks.OpenAiEmptyDropped | src/proxy/transforms/openai.ts:321-337 | so is a chunk with neither choices nor usage, or whose first choice has no delta |
| StreamChunks.OpenAiUsageReads | src/proxy/transforms/openai.ts:321-335 | usage is read from a chunk without choices, each count by its own name |
| StreamChunks.OpenAiPrinted | src/proxy/transforms/openai.ts:358-386 | every printed chunk says what it is, and a delta is that of choice 0 |
| StreamChunks.DoneReads | src/proxy/transforms/openai.ts:314-319 | done comes back from what either format prints for it; OpenAI also ends at null and at a padded "[DONE]" |
| SseRoundTrip.EventReads | src/proxy/stream.ts:20-54 | the lines written for one chunk mean its echo to the parser |
| SseRoundTrip.RoundTrip | src/proxy/stream.ts:18-57 | writing any chunks and parsing the text under any chunking gives their echoes in order |
| SseRoundTrip.OpenAiRoundTripExact | src/proxy/stream.ts:18-57 | written, cut into network pieces in any way and parsed, a stream comes back as it was if and only if each chunk carries only non-empty fields of its kind and only the last is done |
| SseRoundTrip.OpenAiEchoesExactly | src/proxy/transforms/openai.ts:314-389 | the same for the chunks the format has room for |
| SseRoundTrip.AnthropicRoundTripExact | src/proxy/stream.ts:18-57 | an Anthropic stream comes back as it was if and only if every chunk is a text, a tool's start or a piece of its input, with no other field |
| SseRoundTrip.AnthropicLosesDone | src/proxy/stream.ts:25-32 | no Anthropic stream ends with done when read back |
| Canonical.MatchesItsOwn | src/proxy/transforms/openai.ts:47-58 | which base64 images the data-URL expression reads back from their own URL |
| Canonical.DecodedExactly | src/proxy/transforms/openai.ts:47-57 | for every URL: it becomes a base64 image of this type and data exactly if it spells them, and is kept as a URL otherwise |
| Canonical.EncodedPlainly | src/proxy/transforms/openai.ts:180-183 | how a source is written as a URL |
| Json.FalsyExactly | src/proxy/transforms/openai.ts:104-111 | which values the readers take as not given |
| Json.FirstExactly | src/proxy/transforms/openai.ts:321-342 | what `[0]` finds in an array, a string or an object |
| Canonical.DecodedIsRepresentable | src/proxy/transforms/openai.ts:47-58 | whatever URL is decoded, the result survives encoding and decoding |
| Canonical.UrlRoundTrip | src/proxy/transforms/openai.ts:180-183 | an image source comes back from its URL if and only if it is representable |
| OpenAiRequests.TakeMessage | src/proxy/transforms/openai.ts:33-98 | one pass through the message loop, with its failures |
| OpenAiRequests.ReadRequest | src/proxy/transforms/openai.ts:27-137 | the canonical request, or the exception, of a body |
| OpenAiRequests.ReadCalls | src/proxy/transforms/openai.ts:65-73 | the tool blocks, unless parsing some arguments throws |
| OpenAiRequests.PushMessage | src/proxy/transforms/openai.ts:146-200 | the wire messages of one canonical message |
| OpenAiRequests.WriteConversation | src/proxy/transforms/openai.ts:140-200 | the wire conversation, system prompt first |
| OpenAiRequests.SortBlocks | src/proxy/transforms/openai.ts:173-191 | the parts and the tool calls of a message |
| OpenAiRequests.WriteResults | src/proxy/transforms/openai.ts:155-167 | one tool message for each tool result |
| OpenAiClients.NumbersRead | src/proxy/transforms/openai.ts:105-108 | for every body read: each number if it is there and not null; max_completion_tokens goes before max_tokens |
| OpenAiClients.StopRead | src/proxy/transforms/openai.ts:109 | a stop string becomes a list of one, a list stays, and nothing falsy counts |
| OpenAiClients.RestRead | src/proxy/transforms/openai.ts:101-134 | the model, the stream flag, and everything under unknown keys |
| OpenAiClients.ToolListRead | src/proxy/transforms/openai.ts:111-120 | the tools in order, a missing description empty, missing parameters an empty object, a missing name "undefined" |
| OpenAiClients.UserMessageRead | src/proxy/transforms/openai.ts:40-62 | a user message is read part by part; a part of unknown type becomes its JSON text |
| OpenAiClients.CallsRead | src/proxy/transforms/openai.ts:65-73 | each tool call gives its id, name and parsed arguments, missing ones an empty object; or the parse fails |
| OpenAiClients.SystemRead | src/proxy/transforms/openai.ts:35-38 | the system prompt is all system messages, one line each, wherever they stood |
| OpenAiClients.OddContentPrints | src/proxy/transforms/openai.ts:36-93 | a system or tool message without a string is read as its printed form |
| OpenAiClients.RefusedExactly | src/proxy/transforms/openai.ts:27-137 | reading throws if and only if some call's arguments are no JSON, a syntax error, or else the tools are no list of functions, a type error |
| OpenAiClients.FieldsWritten | src/proxy/transforms/openai.ts:202-224 | every field of the written body; what the request sets goes before an extra of the same name |
| OpenAiClients.ToolsAreWritten | src/proxy/transforms/openai.ts:208-213 | each tool is written as a function with its three fields |
| OpenAiClients.ResultsAreWritten | src/proxy/transforms/openai.ts:155-166 | each tool result becomes a tool message with its id and its string, or the JSON text of its blocks |
| OpenAiClients.BlockFields | src/proxy/transforms/openai.ts:161-162 | the fields of a block's JSON text |
| OpenAiRoundTrip.Normalises | src/proxy/transforms/openai.ts:27-225 | the round trip of a request without tool messages, with tool calls beside a text or image, is its normal form |
| OpenAiExactness.SecondRoundTripChangesNothing | src/proxy/transforms/openai.ts:27-225 | normalising twice is normalising once |
| OpenAiExactness.RoundTripExact | src/proxy/transforms/openai.ts:27-225 | the round trip returns a request unchanged if and only if it is normal, for every request |
| OpenAiExactness.ToolMessagesAreReadTwice | src/proxy/transforms/openai.ts:40-97 | in any conversation that can be read, each tool message becomes two canonical ones, or one if its content is neither string nor array |
| OpenAiExactness.ToolMessageBecomesTwo | src/proxy/transforms/openai.ts:40-97 | which two messages those are, for any tool message with a string or an array |
| OpenAiExactness.WrittenToolMessagesDouble | src/proxy/transforms/openai.ts:40-97 | every tool message the writer printed is read as two |
| OpenAiExactness.BareToolCallsAreLostOrMerged | src/proxy/transforms/openai.ts:64-83 | tool calls alone join the assistant message before them, their blocks after its own, and vanish when there is none |
| AnthropicRequests.ReadConversation | src/proxy/transforms/anthropic.ts:32-75 | the canonical messages of a body |
| AnthropicRequests.WriteConversation | src/proxy/transforms/anthropic.ts:112-161 | the wire messages: no system messages, tool turns sent as the user's |
| AnthropicRequests.PushBlocks | src/proxy/transforms/anthropic.ts:119-156 | the wire blocks of one message |
| AnthropicClients.ConversationRead | src/proxy/transforms/anthropic.ts:32-75 | every message with a string or a list is read, in order, block by block: an unknown block as its JSON text, a tool result as printed text |
| AnthropicClients.NumbersAreRead | src/proxy/transforms/anthropic.ts:82-84 | each number if it is there and not null; there is no default on the way in |
| AnthropicClients.RestIsRead | src/proxy/transforms/anthropic.ts:78-104 | the model, the system prompt, the stop sequences, the stream flag, and everything under unknown keys |
| AnthropicClients.RefusedExactly | src/proxy/transforms/anthropic.ts:87-93 | reading throws, a type error, if and only if the tools are no list or hold a null; otherwise they are read in order |
| AnthropicClients.FieldsWritten | src/proxy/transforms/anthropic.ts:164-187 | every field of the written body; max_tokens is always there, 4096 if the request sets none, whatever its extras hold |
| AnthropicClients.ToolsAreWritten | src/proxy/transforms/anthropic.ts:172-178 | each tool is written with its three fields |
| AnthropicClients.ResultWritten | src/proxy/transforms/anthropic.ts:144-151 | a tool result is written with its own content, nested or not, and its error flag always spelled out |
| AnthropicRoundTrip.Normalises | src/proxy/transforms/anthropic.ts:27-188 | the round trip of any request whose extras avoid the known keys is its normal form |
| AnthropicRoundTrip.Idempotent | src/proxy/transforms/anthropic.ts:27-188 | for every request whose first round trip succeeds, a second one changes nothing if and only if the first did not take a system prompt from the extras that prints as nothing |
| AnthropicRoundTrip.BlankSystemHappens | src/proxy/transforms/anthropic.ts:81-185 | a request whose second round trip differs from its first: an empty array for system among its extras |
| AnthropicRoundTrip.RoundTripExact | src/proxy/transforms/anthropic.ts:27-188 | the round trip returns a request unchanged if and only if it is normal |
| AnthropicRoundTrip.OpenAiToAnthropicKeepsTurns | src/proxy/transforms/anthropic.ts:109-188 | a turn read from an OpenAI body keeps its text, images and tool calls, in order, through an Anthropic round trip |
| Pipelines.PipelineEngine.DispatchAt | src/core/pipeline.ts:22-68 | the recursive dispatch: time check, entry, script, wrapping of failures |
| Pipelines.PipelineEngine.Execute | src/core/pipeline.ts:19-75 | a run's failure is a pipeline error, and the total time is recorded in every case |
| Pipelines.RunIsOnion | src/core/pipeline.ts:22-68 | for every script, entries and exits nest as an onion in index order, and the outermost exit tells how the run ended |
| Pipelines.EnteredAtMostOnce | src/core/pipeline.ts:39-52 | no middleware is entered twice, whatever calls next |
| Pipelines.TimeoutStopsDescent | src/core/pipeline.ts:23-31 | for every script: when the reading that belongs to index k says time is out, nothing from k on is entered |
| Pipelines.TimeoutIsTheFailure | src/core/pipeline.ts:23-31 | if the middlewares before k pass control on, exactly they are entered and the timeout naming k is the failure |
| Pipelines.PassingOnReachesTheEnd | src/core/pipeline.ts:33-52 | with time left and middlewares that pass on, every one is entered and the run succeeds |
| Pipelines.FailuresAreWrapped | src/core/pipeline.ts:57-67 | what a middleware throws leaves it as a pipeline error: its own unchanged; any other as unknown, status 500, with its message, the step and the original |
| Pipelines.SecondNextThrows | src/core/pipeline.ts:42-49 | a second next throws an invalid_request that names the step, and enters nothing |
| Pipelines.TimeoutsAreNamed | src/core/pipeline.ts:23-31 | running out of time is a 504 that may be retried and names the index reached |
| Pipelines.DecimalReads | src/core/pipeline.ts:27-36 | the index in a step's name reads back as the number it is |
| RequestLoggers.RequestLogger.LogRequest | src/logging/request-log.ts:46-55 | an entry is queued, and a full queue is taken off |
| RequestLoggers.RequestLogger.Flush | src/logging/request-log.ts:60-75 | the whole queue becomes one batch in flight |
| RequestLoggers.RequestLogger.StoreWrote | src/logging/request-log.ts:80-81 | the store takes the next entry of the batch |
| RequestLoggers.RequestLogger.StoreFailed | src/logging/request-log.ts:71-74 | a refused write ends its batch |
| RequestLoggers.RequestLogger.CloseLogger | src/logging/request-log.ts:126-131 | the timer stops and the queue is taken off |
| RequestLoggers.HundredthTakesOff | src/logging/request-log.ts:46-55 | an entry waits in the queue unless it is the hundredth, which takes the whole queue off |
| RequestLoggers.RunInOrder | src/logging/request-log.ts:46-75 | over every interleaving, batches are consecutive stretches of the arrivals, each written in order, and fewer than 100 entries wait |
| RequestLoggers.NothingVanishes | src/logging/request-log.ts:46-75 | over every interleaving, the entries logged are those queued, in flight, written and lost, as multisets |
| RequestLoggers.LostOnlyByFailure | src/logging/request-log.ts:67-74 | over every interleaving, nothing is lost if and only if the store never refused a write |
| RequestLoggers.FailureLosesTheRest | src/logging/request-log.ts:67-74 | a failed write loses the rest of its batch |
| RequestLoggers.CloseDrainsExactly | src/logging/request-log.ts:126-131 | close is sure to return with no flush waiting if and only if none was waiting when it was called, over every order in which the store answers |
| RequestLoggers.NothingInFlight | src/logging/request-log.ts:60-75 | nothing is in flight exactly if no flush is waiting |
| RequestLoggers.CloseLeavesBatchInFlight | src/logging/request-log.ts:126-131 | an example: close after a full batch returns with the whole batch in flight |
| Timeouts.SliceInsideParent | src/core/timeout.ts:31-43 | a slice ends no later than its parent, and has time only while its parent has |
| Timeouts.SlicesNest | src/core/timeout.ts:39-43 | a slice of a slice ends no later than either |
| Timeouts.SliceExactly | src/core/timeout.ts:31-43 | a slice begins now and lasts its maximum, or the time left if it has none, asks for 0 or asks for more |
| Templates.SegmentsAreWhole | src/compose/template.ts:75 | literals and references spell the template exactly |
| Templates.LeftmostTaken | src/compose/template.ts:75 | references are the leftmost matches of the expression |
| Templates.PatternIsSeen | src/compose/template.ts:75 | wherever the expression stands a reference is seen |
| Templates.StepReference | src/compose/template.ts:43-53 | a step reference gives that step's content, and an unknown step's reference stays as it is |
| Templates.NamedReference | src/compose/template.ts:43-53 | every field of a named step, nothing for an unknown field, and an unknown name left as it was written |
| Templates.OriginalReference | src/compose/template.ts:55-61 | the last user message, system prompt and model of the original, and nothing else |
| Templates.PreviousReference | src/compose/template.ts:63-70 | the content, provider and name of the previous step; nothing without one |
| Templates.OtherReference | src/compose/template.ts:72 | any other reference is left as it was written |
| Templates.LastUserIsLast | src/compose/template.ts:30-37 | the last user message is the text of the last message a user sent |
| Templates.TextsJoin | src/compose/template.ts:23-26 | a content's texts are those of its text blocks in order |
| Templates.LinesJoin | src/compose/template.ts:26 | texts are put together with one newline between each two |
| Templates.PaddingIgnored | src/compose/template.ts:81 | blanks around a reference do not matter |
| Templates.SinglePass | src/compose/template.ts:80-82 | substitution is single-pass: what a reference resolves to is not looked at again |
| Templates.NoReferencesNoChange | src/compose/template.ts:80-82 | a template without references is unchanged |
| ChainComposers.RunStep | src/compose/chain.ts:150-243 | the loop body: results, step map, previous step, the sliced call and the abort |
| ChainComposers.Execute | src/compose/chain.ts:134-276 | the composition or the error, and every provider call made |
| ChainResults.ResultsAlign | src/compose/chain.ts:150-243 | result i is what configured step i gives, up to the first step that stops the chain |
| ChainResults.ComposeExactly | src/compose/chain.ts:214-276 | the chain throws exactly if no step reached succeeded or was defaulted, and then names how many were completed; a final response exists exactly if the last step succeeded, and is its answer |
| ChainResults.PartialIsFail | src/compose/chain.ts:248-276 | replacing the partial policy by fail changes neither result nor error |
| ChainResults.FailStillReturns | src/compose/chain.ts:258-275 | with an earlier success a failing step under policy fail does not make the chain throw |
| ChainResults.ReferencesSeeHistory | src/compose/chain.ts:204-230 | a step's templates see the latest result of each name and the last step that was called |
| ChainResults.CallSeesHistory | src/compose/chain.ts:31-64 | what a step is asked: its own provider and budget slice; without a template the content of the latest step called before it, or the original conversation if none was; with one, the template over the results so far |
| ChainResults.RequestSettings | src/compose/chain.ts:46-63 | its own model and system prompt before the original's, the original's sampling fields, never a stream; only a first plain step passes on the rest of the original |
| ChainResults.CallsMade | src/compose/chain.ts:158-191 | a call is added exactly for a step that is reached with time left |
| ChainResults.FailureExactly | src/compose/chain.ts:67-128 | what a failed step leaves and whether the chain stops, under each policy and without one |
| ChainResults.SuccessExactly | src/compose/chain.ts:193-201 | what a step that succeeds leaves: the text of its answer |
| ChainResults.CallsInsideBudget | src/compose/chain.ts:176-191 | every call's budget ends no later than the request's |
| ToolRouters.HandleCalls | src/compose/tool-router.ts:91-133 | the tool results of one round |
| ToolRouters.NoCallsExactly | src/compose/tool-router.ts:79-88 | a session ends exactly at an answer none of whose blocks is a tool call |
| ToolRouters.Execute | src/compose/tool-router.ts:58-150 | the response or error, and the requests sent to the primary model |
| ToolRouters.ResultsMatchCalls | src/compose/tool-router.ts:91-133 | one result for each call, same ids in the same order; a call no handler is configured for gets an error result |
| ToolRouters.ResultExactly | src/compose/tool-router.ts:98-133 | the text of each result: what the tool answered, or an error result whose JSON carries the message |
| ToolRouters.RoundContinues | src/compose/tool-router.ts:135-142 | a round adds the model's turn and one tool message to the conversation |
| ToolRouters.RouteExactly | src/compose/tool-router.ts:58-150 | the k-th primary request is the original conversation plus k − 1 such pairs; a response asks for no tools; the limit is reported after exactly maxRounds calls |
| MemoryLogs.Selects | src/store/memory.ts:55-75 | the filter's test holds exactly of the entries a query matches |
| MemoryLogs.Spares | src/store/memory.ts:126-148 | the separately written test of deletion is its opposite |
| MemoryLogs.SelectsExactly | src/store/memory.ts:55-75 | each criterion against its own field; an empty text or a bound of 0 is none; a search looks for the lower-case term in path, provider and model |
| MemoryLogs.MemoryStore.QueryLogs | src/store/memory.ts:78-86 | the page of the newest-first selection |
| MemoryLogs.MemoryStore.CountLogs | src/store/memory.ts:88-90 | the number of positions in the log whose entry matches every criterion of the query |
| MemoryLogs.MemoryStore.AggregateUsage | src/store/memory.ts:92-105 | the totals of the entries selected |
| MemoryLogs.MemoryStore.DeleteLogs | src/store/memory.ts:124-151 | the store keeps what the test spares, and the result is the number of matching positions, as CountLogs answered before |
| MemoryLogs.NewestFirstIsStableSort | src/store/memory.ts:81 | newest first, the same entries, and entries of one time in their old order |
| MemoryLogs.StableSortIsUnique | src/store/memory.ts:81 | any stable sort by falling timestamp gives this result |
| MemoryLogs.DeletedExactly | src/store/memory.ts:124-151 | the positions removed are those of matching entries, the others keep their order |
| MemoryLogs.DeleteHidesOnlyDeleted | src/store/memory.ts:124-151 | afterwards every query answers what it did, less the deleted entries, in the same order |
| MemoryLogs.DeleteSplitsAggregates | src/store/memory.ts:92-105 | for every query the aggregate before is the sum of those over the deleted and the remaining entries |
| MemoryLogs.AverageIsLatency | src/store/memory.ts:98-104 | the average times the number of requests is the total latency; of no requests it is 0 |
| MemoryLogs.AggregateExactly | src/store/memory.ts:92-105 | an aggregate counts the entries and adds up each field by itself |
| MemoryLogs.PagesArePrefix | src/store/memory.ts:83-84 | the first n pages of any positive size are the beginning of the full answer |
| MemoryLogs.PagesMakeTheWhole | src/store/memory.ts:83-84 | enough pages are exactly the full stable answer |
| MemoryLogs.ZeroIsNotGiven | src/store/memory.ts:56-84 | a since, until, offset or limit of 0 gives the answer of a query without it |
| MemoryLogs.NoDefaultLimit | src/store/memory.ts:83-84 | without a limit and an offset a query answers with every entry it matches |
| Ledger.SummarizeUsageEntries | src/prism-pipe.ts:306-332 | the token sums and the number of distinct requests |
| Ledger.SummaryExactly | src/prism-pipe.ts:306-332 | a summary counts the distinct requests and adds up each kind of token by itself; the total is the sum of the five |
| Ledger.Group | src/proxy/usage-grouping.ts:9-20 | each key's bucket holds its entries in order, keys in order of first appearance |
| Ledger.FirstSeenExactly | src/proxy/usage-grouping.ts:9-20 | the keys come once each and are those of the entries |
| Ledger.GroupUsageByModel | src/proxy/usage-grouping.ts:30-52 | each model with the summary of its entries |
| Ledger.GroupUsageByDimension | src/proxy/usage-grouping.ts:4-28 | each proxy or route with its usage by model |
| Ledger.UsageByModelAddsUp | src/prism-pipe.ts:359-378 | tokens over the models add up to the ungrouped ones; requests to no fewer, equally many exactly if no request used two models |
| Ledger.UsageByDimensionAddsUp | src/prism-pipe.ts:380-403 | the same over groups and then models |
| Ledger.PriceIsCost | src/prism-pipe.ts:334-357 | pricing a model's summary is pricing its entries one by one, and an unregistered model's cost nothing |
| Ledger.EntryIsBilled | src/prism-pipe.ts:334-357 | one entry is billed each kind of token at that kind's rate per million, a missing rate nothing, and the total is the sum of the five |
| Ledger.CostIsBilled | src/prism-pipe.ts:209-223 | the per-entry cost is the sum of those bills |
| Ledger.GetCost | src/prism-pipe.ts:209-223 | the total is the sum of the entries' bills at the rates per million, in whatever order the models are added |
| Ledger.CostByModelAddsUp | src/prism-pipe.ts:230-238 | the models' costs add up to that total |
| Ledger.CostByDimensionAddsUp | src/prism-pipe.ts:405-428 | so do the costs by proxy or route: no grouping changes the bill |
| Ledger.ProxiesAndRoutesAgree | src/prism-pipe.ts:247-266 | the bill by proxy is the bill by route |
| Ledger.NamelessGroups | src/prism-pipe.ts:240-266 | the entries without a proxy or a route have a group of their own, by its fixed name |

## Left out

- HTTP, fetch, headers, agents, metrics, log messages and abort signals: plumbing around the modelled decisions.
- The SQLite store: its queries run in a database the model cannot see.
- JSON text and UTF-8 decoding: taken as the bijection `Json.Lawful` describes, on already decoded characters. Numbers are integer codes, so `Number(x)` of text is not modelled.
- Floating-point rounding: token levels, rates, costs and averages are exact reals.
- Token buckets and breakers under clocks that run back, and `selectProxy`, which reads the clock as a random source.
- Interleaving inside one token-bucket check: two first checks of a key that overlap between the store's read and write may both start from a full bucket.
- Middlewares that call `next` without awaiting it, and message roles other than the four canonical ones.
- Response bodies (`responseToCanonical`, `responseFromCanonical`), the Gemini and Ollama transformers, feature degradation and `src/fallback/retry.ts`: weaker or repeated claims.
- `parseSSEText`, `ttfbMs` and usage counts that are not numbers (read as 0).
- Anthropic `stop_sequences` that are not an array: the model holds them as a list of one.
- Durations in chain results, and the step numbers and wording in error messages.
- The requests sent to tool providers, and checking and importing a local handler's path: a tool run is its outcome.
- Log fields no store operation reads, `queryUsage` and `queryCosts`, which are plain filters.
- Negative or fractional token counts, for which the summary's schema check throws, and model prices overridden per proxy.
