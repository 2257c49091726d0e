# Verified models of the Bedrock provider, the AI SDK stream adapter and the evaluation kernels

The project models, in Dafny, the parts of the repository that carry the most state and arithmetic, and proves what they
promise for all inputs, runs and splittings. `dafny verify dfyconfig.toml` checks everything.

| file | what it models |
|---|---|
| BedrockRequest, BedrockCheckpoints, BedrockReading, BedrockChatReq | a chat prompt becoming Converse messages, and the cache-checkpoint budget that system prompt, messages and tools share |
| BedrockFailover | opening a Converse stream across regions: which region may still be tried, and what the reader sees |
| BedrockStream, AnswerReading, AnswerSplits, StreamedThoughts, StreamEqualsBatch | the reader of a whole Converse answer, the reader of single events, all ways of splitting an answer into events, and the agreement of the readers |
| SdkTransformer, StreamGrammar, StreamTotals | `AxToSDKTransformer`: the shape of its output and what every part of it adds up to |
| SdkGenerate, ToolReassembly, StreamPipeline | `doGenerate`, and against it the whole streaming path: events read, stamped with token usage and adapted |
| SiblingRoutes | the sibling ping-pong worklist over any route table, and the route table a mind really builds |
| WakeSchedule, WakeTiming, MindPacer | the pacer event loop over any pacer, when it wakes, and the shipped ladder with its spending fuse |
| TrajectoryStore, RollupPyramid | the generated log with filtered reads and backward tailing, and the aligned block pyramid |
| Sorting, IndexGenerator, IndexStatements, IndexText, IndexFile | the export selection of the index generator, the file it writes, and the file read back |
| Calibration, Digest, FisherYates, SeededShuffle, TaskInterleaving, OrderMetric | the numerical and combinatorial kernels |
| ChatTypes, Optional, Sequences, Encodings, Words | shared shapes and list functions, JSON literals and base64, 32-bit words |

Code that changes state step by step is a class or a method with a loop, specified by a function or a predicate; the
theorems are lemmas about that function. Where a method is its function's step-by-step twin, or a mapping is shared by
several readers, the table below names the lemmas that say what comes out without naming it: block by block, field by
field, wake by wake or line by line. Concurrency appears as data: a regional outcome script and a cancellation oracle
for failover, an arbitrary pacer for the scheduler, an arbitrary event list for the stream readers, and an arbitrary
remembered usage before every event, since all requests of a provider share it. Rounding is not
modelled: the calibration and the shuffle work over exact reals. Integers of the source are unbounded here except where
the source truncates (the 64-bit digest, the 32-bit generator).

## Where the code does not do what one would expect

For each of these there is an exact condition under which the code does meet the expectation, proved for all inputs, and
a concrete input on which it does not.

- The usage of a stream. `tokensUsed` is one field of the provider (src/aws-bedrock/api.ts:343), every event is stamped
  with it (src/ax/ai/base.ts:2264-2274) and the adapter adds the stamps up (src/aisdk/provider.ts:671-673). So counts
  remembered from an earlier request, or from one that ends meanwhile, are added again for every event before the
  stream's own report. `StreamPipeline.PipelineEqualsBatch` and `UsageRightIff`; inputs in `RememberedUsageShows`.
- The finish reason of a stream. An event never has text and a stop reason together, so the adapter only says whether a
  tool call came last. `ToolReassembly.StopReasonIsLost` and, for whole answers, `PipelineEqualsBatch`; input in
  `CutOffUnnoticed`.
- The response metadata of a stream. The first announcement is final, and a provider that remembers no usage has not
  named the model by then. `PipelineEqualsBatch`; input in `FreshStreamUnnamed`.
- The arguments of a tool call. A stream passes on the text as it was sent; a whole answer prints the parsed value again
  (src/aisdk/provider.ts:266-275). They agree for an object, array, number or boolean that was sent in exactly the
  spelling of the print, and never for a string, null or missing input. `StreamEqualsBatch.StreamEqualsBatch`; inputs in
  `SentTextDiffers`.
- The data of an encrypted thought. A stream encodes each piece on its own (api.ts:1054), so the joined text is the whole
  payload's only if the payload was cut at whole triples of bytes. `StreamedThoughts.ThoughtsJoin`; input in
  `CutPayloadDiffers`.
- Breakpoints on content items. Such a breakpoint alone does not count as a caching request (api.ts:666-668 looks at
  messages and functions only), so the prompt is rejected as if caching were not supported.
  `BedrockChatReq.ItemBreakpointsAlone`; input in `ItemBreakpointRejected`.
- A chunk without results emits its own finish. `StreamGrammar.StreamIsWellFormed`; input in `EmptyChunkFinishesTwice`.
- A draw can be exactly 1, which writes past the end of the array and leaves a hole. `SeededShuffle.SeededShuffle`; the
  seed exists by `SpoilingSeedExists`.
- A negative count is taken off the total, so a request that mixes signs comes out short. `TaskInterleaving.BuildTasks`;
  input in `NegativeCountLosesTask`.
- `read` tests its limit after taking a step. `TrajectoryStore.WithinLimit`; input in `ZeroLimitReadsOne`.
- A reactive period of zero or less stops the clock. `WakeSchedule.TimesIncreaseIff`; input in `ZeroPeriodStandsStill`.
- The index imports a file's default export by its local name, which the file need not offer.
  `IndexStatements.ImportsOfferedIff`; input in `LoneDefaultDangles`.
- Two default exports leave the index under one name. `IndexStatements.NamesClashIff`; input in `TwoDefaultsClash`.

## Model

| member | source | states |
|---|---|---|
| `BedrockRequest.Builder.AddCachePoint` | src/aws-bedrock/api.ts:435-448 | A requested checkpoint is set exactly when a lifetime is known and the shared count is below the maximum; the error says which of the two failed; the count never exceeds the maximum |
| `BedrockCheckpoints.PushTagged` | src/aws-bedrock/api.ts:450-460 | Pushing a turn appends its blocks under its role and never leaves two adjacent messages of one role |
| `BedrockRequest.Builder.AddSystem` | src/aws-bedrock/api.ts:462-472 | Succeeds exactly when all requested system checkpoints fit; system texts and their marks in order, the last one marked when caching is automatic |
| `BedrockRequest.Builder.UserItem` | src/aws-bedrock/api.ts:486-513 | An item is taken exactly when the model supports it and its checkpoint fits; unsupported items are refused with their own error |
| `BedrockRequest.RefusedBecause` | src/aws-bedrock/api.ts:486-513 | Which items are refused, and with which error: audio and URLs always, media without the capability or with a payload that cannot be read |
| `BedrockRequest.Builder.UserItems` | src/aws-bedrock/api.ts:485-515 | The items of a message concatenate; whether there was a document and whether there was a text is reported exactly; a refusal is that of the first unsupported item |
| `BedrockRequest.Builder.ToolResults` | src/aws-bedrock/api.ts:559-589 | Tool result items translate one by one; the list is refused exactly when some payload is not accepted |
| `BedrockRequest.Builder.Translate` | src/aws-bedrock/api.ts:477-613 | The blocks of one message of any role, with the checkpoints inside it; it fails exactly when something is unsupported or a checkpoint does not fit. What the blocks say is stated by `TurnShown` |
| `BedrockRequest.Builder.AssistantContent` | src/aws-bedrock/api.ts:531-554 | The two loops and the reply between them: thoughts, text and calls in this order |
| `BedrockReading.TurnShown` | src/aws-bedrock/api.ts:477-617 | Read block by block, the turn of every supported message says what the message says, under its role: an assistant's thoughts in order (the redacted ones as such, signatures only where there is one), then its reply unless it is empty, then its calls in order; a function message's one result with its id, its items or else its result as JSON or text, and its status exactly when the model reports it; a user's text, or its items in order with the prompt in front that a document without text needs; each requested checkpoint directly behind what asked for it |
| `BedrockReading.AnswerShown` | src/aws-bedrock/api.ts:531-554 | The part of this for assistant messages |
| `BedrockReading.ResultShown` | src/aws-bedrock/api.ts:559-609 | The part of this for function messages |
| `BedrockReading.ItemsShown` | src/aws-bedrock/api.ts:485-519 | The part of this for user items |
| `BedrockRequest.Builder.TakeMessage` | src/aws-bedrock/api.ts:474-617 | One prompt message becomes one pushed turn and adds exactly the checkpoints it asked for |
| `BedrockRequest.CreateMessages` | src/aws-bedrock/api.ts:424-628 | Succeeds exactly when everything in the prompt is supported and the requested checkpoints fit the maximum; then the result is the reference translation, of which `TranslationShown` and `MessageNormalForm` speak; an error names its cause, which is the first unsupported message if it is not a checkpoint |
| `BedrockReading.TranslationShown` | src/aws-bedrock/api.ts:424-628 | Read from the end, the messages say what the non-system messages of the prompt say, one after the other, and the system prompt is its texts with their checkpoints, the last marked when caching is automatic; one more checkpoint stands at the very end exactly when automatic caching owes it |
| `BedrockReading.Divided` | src/aws-bedrock/api.ts:462-476 | Which messages are system texts and which are not does not depend on the others, and both keep their order |
| `BedrockReading.DividedOne` | src/aws-bedrock/api.ts:462-476 | A message belongs to the system prompt if it is a system message and to the messages otherwise |
| `BedrockReading.TranslationLives` | src/aws-bedrock/api.ts:435-448 | Every checkpoint in the messages and the system prompt has the lifetime that was resolved |
| `BedrockCheckpoints.MessageNormalForm` | src/aws-bedrock/api.ts:424-628 | Adjacent messages never share a role; without checkpoints the messages are exactly the bare blocks of the non-system prompt messages, which are defined message by message without the translation, in order and under their roles, and the system prompt is the system texts in order; the number of checkpoints is exact |
| `BedrockCheckpoints.TurnPlain` | src/aws-bedrock/api.ts:477-617 | The turn of a message carries its bare blocks, plus exactly the checkpoints it asked for |
| `BedrockCheckpoints.FallbackForm` | src/aws-bedrock/api.ts:619-625 | The fallback adds one checkpoint to a non-empty prompt and changes nothing else |
| `BedrockChatReq.ResolveCacheTtl` | src/aws-bedrock/api.ts:401-422 | No lifetime exactly when no caching was requested; a lifetime only for models that cache, one hour only where supported |
| `BedrockChatReq.ShortestSufficientTtl` | src/aws-bedrock/api.ts:414-421 | For a model that supports five minutes, as all caching models do, the shortest supported lifetime that lasts as long as asked, and a refusal exactly when there is none |
| `BedrockChatReq.DefaultTtl` | src/aws-bedrock/api.ts:401-422 | Where no lifetime is asked for, caching means five minutes |
| `BedrockChatReq.ToolCheckpoint` | src/aws-bedrock/api.ts:630-659 | The tools carry one checkpoint exactly when the prompt's budget was lowered for it |
| `BedrockChatReq.ToolsShown` | src/aws-bedrock/api.ts:630-659 | The tool configuration: there exactly when the model takes functions, some are given and the choice is not to use them; the functions in order, the checkpoint behind them exactly when a lifetime is known and caching is automatic or asked for by a function, and the choice as asked |
| `BedrockChatReq.CreateChatReq` | src/aws-bedrock/api.ts:661-772 | When a request is built, what it contains, and which error it is refused with |
| `BedrockChatReq.CheckpointCount` | src/aws-bedrock/api.ts:666-685 | Checkpoints over messages, system and tools: those asked for, the tools' one, and the fallback exactly when both are absent |
| `BedrockChatReq.CheckpointBudget` | src/aws-bedrock/api.ts:661-759 | A request with a lifetime is built exactly when everything is supported and at most four checkpoints were asked for in all; it carries at most four, at least one when `contextCache` is set and the prompt is not empty, and none without caching |
| `BedrockChatReq.OneLifetime` | src/aws-bedrock/api.ts:401-459 | Every checkpoint of a built request, in its messages, its system prompt or its tools, has the one lifetime that was resolved |
| `BedrockChatReq.ItemBreakpointsAlone` | src/aws-bedrock/api.ts:666-669 | Without a message or function breakpoint and without `contextCache`, a request is built only if no content item asks for a checkpoint |
| `BedrockChatReq.ItemBreakpointRejected` | src/aws-bedrock/api.ts:666-669 | A model with both lifetimes still rejects a lone item breakpoint, and accepts the prompt once `contextCache` is set |
| `BedrockFailover.CreateConverseStream` | src/aws-bedrock/api.ts:833-906 | The sequence of requests, enqueued events and final signal for every script of regional outcomes, every abort, and every moment at which the reader may cancel, also between two events |
| `BedrockFailover.Deliver` | src/aws-bedrock/api.ts:861-880 | A region's stream is handed out whole and closed, unless it fails before its first event in a retryable way (then nothing is) or the reader cancels (then the next enqueue or the close throws) |
| `BedrockFailover.FallsOverByKind` | src/aws-bedrock/api.ts:281-328 | Which regions give way, by the kind of the first event: those that cannot be asked, break off before any event, or begin with an unavailable or internal failure or a stream error with an original status of at least 500, never a throttled or invalid request; and the error that each leaves behind |
| `BedrockFailover.StoryFrom` | src/aws-bedrock/api.ts:848-897 | The same from any region on, with the error of the region before |
| `BedrockFailover.FailoverSafety` | src/aws-bedrock/api.ts:843-899 | Regions are asked in order, and every one before the last gave way, by the kind of its first event, uninterrupted and with nothing delivered; all events come from the last region asked: its whole stream, or what it had sent when the reader left; exactly one close or error, last, or silence for a reader that left; a close only after that stream ran to its end, and otherwise that region's own error: the one of the request, the missing stream, the broken iteration or the failure event; no further region is asked only if the last one delivered, an interruption came or none is left |
| `BedrockFailover.ClosesIff` | src/aws-bedrock/api.ts:848-897 | A run closes exactly when it reaches, uninterrupted, a first region that does not give way and whose stream ends without an error |
| `BedrockStream.BedrockImpl.CreateChatResp` | src/aws-bedrock/api.ts:908-982 | Text, calls and thoughts of the answer's blocks concatenated; the remembered usage is the raw counters field by field, missing ones as zero and a missing total as the sum |
| `AnswerReading.AnswerRead` | src/aws-bedrock/api.ts:908-982 | Read block by block from the end, the response has one result under the request id, with exactly the text, calls and thoughts of the blocks in order, each call and thought with its fields, the shown reasoning where it is asked for, and the finish reason of the stop reason; empty lists and texts are missing |
| `BedrockStream.StopReasonIs` | src/aws-bedrock/api.ts:211-232 | Which stop reasons each finish reason stands for |
| `BedrockStream.UsageCounted` | src/aws-bedrock/api.ts:234-264 | Each reported count is its raw counter, and the service tier its name |
| `BedrockStream.BedrockImpl.CreateChatStreamResp` | src/aws-bedrock/api.ts:988-1080 | One event: its response under the request id, the tool-id table afterwards, or the error it throws, exactly for failure events; after a usage report the remembered usage is the raw counters field by field |
| `BedrockStream.FailureIs` | src/aws-bedrock/api.ts:281-328 | Exactly the failure events are errors, each with its own message or the text of its kind, and the status of its kind |
| `StreamEqualsBatch.StreamEqualsBatch` | src/aws-bedrock/api.ts:908-1080 | For every answer and every way of splitting it block by block, events and whole answer give the same text, visible thought, stop reason, usage, thought blocks (pieces joined per block) in number, order, encryption and signature, and tool calls in number, order, id and name; the thought data agrees exactly when every encrypted payload was cut at whole triples of bytes; the arguments agree exactly when each tool input is an object, array, number or boolean and the text sent for it is the one that the whole answer prints |
| `StreamEqualsBatch.SentTextDiffers` | src/aws-bedrock/api.ts:933-937 | A bare string, the object `{"a":1}` sent with a blank in it, and the empty object sent with no fragment read differently in the two readers |
| `AnswerSplits.EveryAnswerSplits` | src/aws-bedrock/api.ts:1019-1061 | Every answer has a split, so the results about splits leave none out |
| `AnswerSplits.BlockSplits` | src/aws-bedrock/api.ts:1019-1061 | Each block can be sent, a tool block with any text that its input may have |
| `StreamEqualsBatch.StreamEnds` | src/aws-bedrock/api.ts:1003-1031 | However an answer is split, a tool event comes last among tool and text events exactly when a tool use comes last among the tool uses and non-empty texts of the answer |
| `StreamedThoughts.ThoughtsJoin` | src/aws-bedrock/api.ts:1037-1058 | However an answer is split, the thought pieces, joined per block, are the whole answer's thought blocks in number, order, encryption and signature, and in their data exactly when every encrypted payload was cut at whole triples of bytes |
| `StreamedThoughts.PartJoined` | src/aws-bedrock/api.ts:939-957 | The same for one block |
| `StreamedThoughts.CutPayloadDiffers` | src/aws-bedrock/api.ts:1049-1057 | Two bytes of a payload sent one by one join to another text than the whole answer has |
| `Encodings.JoinedEncodings` | src/aws-bedrock/api.ts:116-118 | Separately encoded pieces join to the base64 text of the whole exactly when every piece but the last with anything in it has a length divisible by three |
| `Encodings.Base64Decodes` | src/aws-bedrock/api.ts:116-118 | The bytes can be read back from the text |
| `Encodings.KnownEncodings` | src/aws-bedrock/api.ts:116-118 | The texts of `fo` and `foob` in section 10 of RFC 4648, and the last two signs of the alphabet |
| `StreamEqualsBatch.FlatPieces` | src/aws-bedrock/api.ts:1019-1045 | Text and thought pieces of the events concatenate to those of the blocks |
| `StreamEqualsBatch.FlatCalls` | src/aws-bedrock/api.ts:1003-1031 | Each tool block, split anyhow, leaves one call with exactly the text that was sent for its input |
| `StreamEqualsBatch.OneCall` | src/aisdk/provider.ts:264-276 | The sent text is what the whole answer prints exactly for an object, array, number or boolean sent in that spelling; a JSON literal of a string never is the string |
| `Encodings.LiteralDiffers` | src/aws-bedrock/api.ts:138-143 | Whatever its escapes and blanks, a JSON literal differs from the string it stands for |
| `Encodings.QuotedIsLiteral` | src/aws-bedrock/api.ts:138-143 | Every string has a JSON literal |
| `StreamEqualsBatch.BatchCalls` | src/aisdk/provider.ts:264-276 | The calls listed for a whole answer are those of its tool blocks, one by one |
| `ToolReassembly.InterleavedFold` | src/aws-bedrock/api.ts:1003-1031 | However the fragments of several tool blocks interleave, each block's call holds exactly its own fragments |
| `ToolReassembly.ToolReassembly` | src/aisdk/provider.ts:675-736 | End to end, one emitted call per tool block in start order, with its own name and its fragments concatenated |
| `ToolReassembly.StopReasonIsLost` | src/aisdk/provider.ts:701-720 | For every event list the adapter says tool calls if a tool event came last and otherwise nothing; that is the answer's own reason exactly when the reason is a tool call and a tool event came last, or is none and no tool event did |
| `ToolReassembly.CutOffUnnoticed` | src/aisdk/provider.ts:701-720 | A text cut off by the token limit finishes for no known reason |
| `SdkGenerate.DoGenerate` | src/aisdk/provider.ts:246-290 | A whole answer without results is an error; otherwise its text first and once, its calls in order and unmerged, its own finish reason, usage and metadata |
| `StreamPipeline.WholeReads` | src/aisdk/provider.ts:246-290 | A whole Bedrock answer reports its text, its calls, the SDK finish reason of its stop reason (by name), its own raw counters as usage (input and output or 0, cache reads and writes as they are), and the request id and model that are not empty |
| `StreamPipeline.Relay` | src/ax/ai/base.ts:2222-2306 | Reader, usage stamp and adapter chained over a stream while other requests may change the remembered usage before any event: everything emitted, up to the first failure, which ends the stream without a flush |
| `StreamPipeline.DeliveredReads` | src/ax/ai/base.ts:2264-2274 | The usage stamp changes neither text nor calls, and no chunk is empty |
| `StreamPipeline.DeliveredProvider` | src/aisdk/provider.ts:631-638 | Merging the same provider metadata for every event leaves it as it is |
| `StreamPipeline.RememberedUsage` | src/ax/ai/base.ts:2264-2274 | Usage left by an earlier request, undisturbed, is added once per event before the report |
| `StreamPipeline.HarmlessEach` | src/ax/ai/base.ts:2264-2274 | For counts that are not negative, what is remembered does not show exactly when no single remembered usage does |
| `StreamPipeline.StreamedUsage` | src/aisdk/provider.ts:671-673 | A stream that reports once, at its end, ends with its own usage plus everything remembered before, whatever that was |
| `StreamPipeline.UndisturbedUsage` | src/aisdk/provider.ts:671-673 | With nothing remembered before the report, the finish of the stream bills the raw counters that it reports |
| `StreamPipeline.PipelineEqualsBatch` | src/aisdk/provider.ts:586-753 | For every answer, split and remembered usage: a well-formed stream with the answer's text and provider metadata, which agrees with `doGenerate` on the calls exactly when each input's sent text is the one that the whole answer prints, on the finish reason exactly when the stop reason says whether a tool use came last, on the usage exactly when what is remembered before the report does not show, and on the response metadata exactly when there is no request id, no model name, or usage remembered at the first event |
| `StreamPipeline.UsageRightIff` | src/ax/ai/base.ts:2264-2274 | For counts that are not negative: the stream's usage is the whole answer's exactly when no event before the report finds remembered counts that show |
| `StreamPipeline.RememberedUsageShows` | src/ax/ai/base.ts:2264-2274 | One token left by an earlier request, or by one that ends while the stream runs, falsifies the usage of an empty answer |
| `StreamPipeline.FreshStreamUnnamed` | src/aisdk/provider.ts:640-647 | The stream of a provider that remembers nothing announces its request id without the model |
| `SdkTransformer.MergeProviderMetadata` | src/aisdk/provider.ts:73-89 | Nothing from two missing metadata; else per provider the union of both, the later one winning |
| `SdkTransformer.MergeSource` | src/aisdk/provider.ts:80-87 | One source spread over what has been merged, in any order of its providers |
| `SdkTransformer.FindCall` | src/aisdk/provider.ts:677-679 | The first call with the id, or none |
| `StreamGrammar.RunPhase` | src/aisdk/provider.ts:618-722 | After any chunks the adapter's flags say exactly where in the stream grammar its output stands |
| `StreamGrammar.ClosingPhase` | src/aisdk/provider.ts:723-748 | From there the flush completes a well-formed stream |
| `StreamGrammar.StreamIsWellFormed` | src/aisdk/provider.ts:618-748 | Start first, at most one response metadata, at most one non-empty text block closed before the calls, one finish, last: exactly when every chunk has a result |
| `StreamGrammar.EmptyChunkFinishesTwice` | src/aisdk/provider.ts:649-669 | One chunk without results makes a stream that finishes twice |
| `StreamGrammar.TextIsContent` | src/aisdk/provider.ts:705-721 | The text deltas concatenate to all content, for every chunk list |
| `StreamGrammar.FinishesAndCalls` | src/aisdk/provider.ts:649-748 | One finish plus one for each empty chunk, the last part carrying the final state; calls come from the flush alone |
| `StreamGrammar.MergeReassembles` | src/aisdk/provider.ts:675-703 | Merging in place computes the per-id reassembly, however the calls interleave |
| `StreamGrammar.OneCallPerId` | src/aisdk/provider.ts:675-736 | One emitted call per distinct id in first-seen order, with its first name and the input its own fragments build |
| `StreamGrammar.AssembledFrom` | src/aisdk/provider.ts:691-699 | That input is the last value that is not a string and the strings behind it, and undefined only if nothing follows an undefined one |
| `StreamGrammar.FirstSeen` | src/aisdk/provider.ts:677-689 | The distinct ids, each once |
| `StreamTotals.UsageIsSummed` | src/aisdk/provider.ts:548-584 | The finish usage is the sum over all chunks with a result; an optional count is absent exactly when no chunk has it |
| `StreamTotals.MergedLookup` | src/aisdk/provider.ts:73-89 | Per provider and key, the later metadata wins and the earlier shows through |
| `StreamTotals.MetadataLastWins` | src/aisdk/provider.ts:631-638 | Over a stream, per provider and key the last chunk that names it wins |
| `StreamTotals.FinishReasonDecided` | src/aisdk/provider.ts:701-720 | Only the last chunk with text or calls decides the finish reason |
| `StreamTotals.MetadataAnnouncedOnce` | src/aisdk/provider.ts:640-647 | Exactly the first response metadata that is known is announced |
| `SiblingRoutes.SiblingRouteFixedPoint` | scripts/mind-durability-eval.ts:1243-1263 | For every route table the loop ends; it quiesces exactly when the non-empty walks from the seed are finitely many and below the ceiling, `admitted` is then their number, and otherwise the ceiling |
| `SiblingRoutes.Admit` | scripts/mind-durability-eval.ts:1253-1257 | An admitted wake stands for one new walk and keeps the worklist invariant |
| `SiblingRoutes.Verdict` | scripts/mind-durability-eval.ts:1260-1263 | An empty worklist below the ceiling means all walks were counted |
| `SiblingRoutes.WokenBy` | src/ax/mind/routes.ts:172-227 | Whom a step wakes: outsiders' steps always, a sibling's unless it carries nothing and is not watched, one's own only with `triggerSelf` and never an error |
| `SiblingRoutes.RuleStopsPingPong` | src/ax/mind/routes.ts:184-206 | With the sibling rule the replay admits nothing, for any thinkers |
| `SiblingRoutes.BaselineRunsAway` | src/ax/mind/routes.ts:172-227 | Without it the replay quiesces exactly when there is no second thinker |
| `WakeSchedule.Simulate` | scripts/mind-pacer-eval.ts:166-251 | The numbers of spontaneous, last-hour and reactive wakes of the run, as sizes of sets of its wakes, for any pacer |
| `WakeTiming.EveryWakeOnTime` | scripts/mind-pacer-eval.ts:193-251 | For every pacer, horizon and period, said of the pacer's decisions and the list of wakes alone: a spontaneous wake comes at the later of the delay that the last decision armed and one tick after the previous event, only if the pacer is not parked and before the next period is over; a reactive one when the period is over, which wins a tie; all below the horizon; the run ends in the state of its last decision, and before its guard only when nothing is left to come |
| `WakeTiming.OnTimeUnique` | scripts/mind-pacer-eval.ts:232-251 | One list of wakes is on time to the end, so these are the wakes of the run |
| `WakeTiming.SteadyWakes` | scripts/mind-pacer-eval.ts:224-251 | A pacer that always arms the same delay of at least a tick wakes at exactly the multiples of it below the horizon |
| `WakeSchedule.WakeTimes` | scripts/mind-pacer-eval.ts:232-251 | Wake times strictly increase, spontaneous ones by at least a tick, and at most HOUR_MS/TICK_MS fall in the last hour |
| `WakeSchedule.TimesIncreaseIff` | scripts/mind-pacer-eval.ts:232-251 | They increase in every run exactly when the period is positive or beyond the horizon |
| `WakeSchedule.ZeroPeriodStandsStill` | scripts/mind-pacer-eval.ts:240-246 | A period of 0 wakes at instant 0, before the clock has moved |
| `WakeSchedule.ReactiveBeats` | scripts/mind-pacer-eval.ts:240-246 | A run the guard did not cut wakes reactively at exactly the multiples of the period below the horizon |
| `WakeSchedule.WakeBound` | scripts/mind-pacer-eval.ts:232-251 | No more wakes than ticks plus periods below the horizon |
| `WakeSchedule.GuardNeverEnds` | scripts/mind-pacer-eval.ts:232-238 | If that many events are fewer than MAX_STEPS, the guard never ends a run |
| `WakeSchedule.DayIsLongEnough` | scripts/mind-pacer-eval.ts:232-238 | It never ends a 24-hour run, with or without a reactive wake every five minutes |
| `MindPacer.FuseHolds` | src/ax/mind/pacer.ts:76-162 | In any run of the shipped ladder no hour holds more spontaneous wakes than the fuse allows |
| `MindPacer.NextPaceFused` | src/ax/mind/pacer.ts:85-122 | The ladder keeps exactly the spontaneous wakes of the last hour and parks exactly when they reach the fuse |
| `MindPacer.LadderAgrees` | scripts/mind-pacer-eval.ts:203-211 | Every armed delay is the ladder's own function of the level reported with it, exactly unless thoughts have a negative cap and the fuse lets a wake through; no delay exceeds the cap |
| `MindPacer.LadderClimbs` | src/ax/mind/pacer.ts:123-147 | Whenever a run is not parked, the level is the number of spontaneous wakes since the last reactive one, divided by `hold` if they stayed idle and undivided if they failed; visible outcomes keep it at 0 |
| `MindPacer.DecisionTable` | src/ax/mind/pacer.ts:102-162 | What a decision leaves behind: a fused or `noop` wake keeps the level and arms nothing, parking lasts until the oldest wake is an hour old, and engagement resets the ladder |
| `MindPacer.DelayGrows` | src/ax/mind/pacer.ts:23-30 | The delay of a level is nothing, then the base, then grows by the factor up to the cap |
| `TrajectoryStore.SyntheticStore.Read` | scripts/trajectory-projection-eval.ts:134-147 | The matching steps of the window in order, cut at the limit, and when that keeps to the limit |
| `TrajectoryStore.SyntheticStore.TailBackward` | scripts/trajectory-projection-eval.ts:148-162 | Exactly the matches of the window it scanned, ascending, with the window's size and whether it reached the start |
| `TrajectoryStore.SyntheticStore.RawReplayChars` | scripts/trajectory-projection-eval.ts:263-281 | Reading chunk by chunk counts every thought once |
| `TrajectoryStore.WithinLimit` | scripts/trajectory-projection-eval.ts:143-144 | A read stays within its limit exactly when the limit is at least 1, or 0 with nothing to read; every limit below 1 acts as 1 |
| `TrajectoryStore.ZeroLimitReadsOne` | scripts/trajectory-projection-eval.ts:143-144 | A read with limit 0 of the empty log returns its first step |
| `TrajectoryStore.SelectedSplit` | scripts/trajectory-projection-eval.ts:134-147 | Reads of adjacent windows concatenate |
| `TrajectoryStore.PageProgress` | scripts/trajectory-projection-eval.ts:151-160 | A page moves back exactly when it may return and scan at least one step |
| `TrajectoryStore.PageSize` | scripts/trajectory-projection-eval.ts:155-160 | A page returns at most its limit and scans at most its bound |
| `TrajectoryStore.PagesAreTheLog` | scripts/trajectory-projection-eval.ts:148-162 | Walking back page by page ends and reproduces the forward filtered read |
| `TrajectoryStore.IndexRoundTrip` | scripts/trajectory-projection-eval.ts:71-80 | `indexOf` undoes `seqOfIndex`, which points at the thought of that number |
| `TrajectoryStore.IndexOfThoughts` | scripts/trajectory-projection-eval.ts:76-106 | Exactly the thoughts have a filtered index, and it leads back to their position |
| `TrajectoryStore.FilteredIndex` | scripts/trajectory-projection-eval.ts:71-106 | The i-th thought of the filtered log sits at `seqOfIndex(i)` |
| `TrajectoryStore.LogAlternates` | scripts/trajectory-projection-eval.ts:82-106 | After the opening step, runs and thoughts alternate, each numbered from 0 |
| `RollupPyramid.SealHollowBlocks` | scripts/trajectory-projection-eval.ts:494-529 | The blocks sealed are the pyramid of all aligned blocks that fit, tier by tier; their number; the metadata |
| `RollupPyramid.TierTiles` | scripts/trajectory-projection-eval.ts:510-514 | A tier starts at 0, has neither gap nor overlap and leaves less than one block uncovered |
| `RollupPyramid.SealedIndexIsCovered` | scripts/trajectory-projection-eval.ts:506 | The sealed index is where the lowest tier ends |
| `RollupPyramid.BlockIsItsChildren` | scripts/trajectory-projection-eval.ts:510-517 | A block one tier up consists of exactly FANOUT consecutive sealed blocks |
| `RollupPyramid.SealedCount` | scripts/trajectory-projection-eval.ts:509-528 | (FANOUT - 1) times the number of sealed blocks is the total minus its base-FANOUT digit sum |
| `IndexGenerator.DedupeFile` | scripts/generateIndex.ts:349-359 | The first export of each name and kind stays, in order |
| `IndexGenerator.SelectFirst` | scripts/generateIndex.ts:521-528 | Each file gets exactly the items that are first of their key |
| `IndexGenerator.SelectionIsWinners` | scripts/generateIndex.ts:504-528 | Sorting and taking the first of each key selects the preferred export of each kind and name |
| `IndexGenerator.GenerateIndex` | scripts/generateIndex.ts:481-562 | Each file imports exactly its kept exports, strictly ordered by name |
| `IndexGenerator.ImportedIffOffered` | scripts/generateIndex.ts:500-555 | A name is imported exactly when some file exports it |
| `IndexGenerator.ImportedOnce` | scripts/generateIndex.ts:500-555 | No name is imported twice, neither from two files nor twice from one |
| `IndexGenerator.OrderIndependent` | scripts/generateIndex.ts:504-519 | The result is the same for every order of the export map and of its lists |
| `IndexGenerator.WinnerPath` | scripts/generateIndex.ts:485-519 | A kept export comes from its canonical file, else from `dsp/types`, else from the smallest path |
| `IndexGenerator.KeptNamesDiffer` | scripts/generateIndex.ts:537-555 | A value and a type of one name are never both kept |
| `IndexStatements.GenerateImportStatement` | scripts/generateIndex.ts:405-447 | The statement of a file: its values sorted, then its types sorted, or nothing for an empty list |
| `IndexStatements.ImportItemCount` | scripts/generateIndex.ts:416-440 | Every export of a file is exactly one import item |
| `IndexFile.GenerateIndexContent` | scripts/generateIndex.ts:481-577 | The whole file spells the index of the export map, its files visited in some order; for names without blanks, commas and braces and paths without line ends it reads back as that index |
| `IndexFile.IndexFileReads` | scripts/generateIndex.ts:405-577 | Read back line by line, the file has the two comment lines; then exactly one import statement for every file of the index, whose braces enclose exactly its exports, values before types and each kind by code unit; then, under its heading, exactly one line for every value, default or not, and for every type of the index; the headings stand where there is something under them |
| `IndexText.ReadOn` | scripts/generateIndex.ts:556-574 | Reading a text after another is reading the two with a line end between them |
| `IndexFile.IndexFileUnique` | scripts/generateIndex.ts:481-577 | Whatever the order of the export map, of its lists and of the selected files, the file is the same text |
| `IndexStatements.StatementsWritten` | scripts/generateIndex.ts:452-476 | The written lists are sorted by code unit, and a line is written exactly for each kept export |
| `IndexStatements.StatementsForgetOrder` | scripts/generateIndex.ts:557-566 | The written file is the same for every order in which the files are visited |
| `IndexStatements.BeforeByDifference` | scripts/generateIndex.ts:557-566 | The first code unit in which two strings differ orders them, and a string comes before all that continue it |
| `IndexStatements.NamesClashIff` | scripts/generateIndex.ts:459-468 | Two exports leave the index under one name exactly when both are default exports, or one is and the other is called `default`, which the prefix filter rules out |
| `IndexStatements.TwoDefaultsClash` | scripts/generateIndex.ts:459-468 | Two files that each export a default value make such an index |
| `IndexStatements.OffersByNameIff` | scripts/generateIndex.ts:416-427 | A file offers the name that the generator imports unless the export is its default and no later one of the file names it |
| `IndexStatements.ImportsOfferedIff` | scripts/generateIndex.ts:416-446 | Every imported name is offered by its file exactly when each kept default is also exported by name further on |
| `IndexStatements.LoneDefaultDangles` | scripts/generateIndex.ts:226-242 | A file with nothing but a default export makes an index that imports a name the file does not offer |
| `Sorting.SortSorted` | scripts/generateIndex.ts:504-519 | The sort orders its input by any strict weak order |
| `Sorting.SortContents` | scripts/generateIndex.ts:504-519 | and permutes it |
| `Sorting.SortedUnique` | scripts/generateIndex.ts:504-519 | Under a total order a sorted list is determined by its contents |
| `Calibration.Valid` | scripts/eval-demand-boundary.ts:202-218 | The kept examples have probabilities in [0, 1] and outcomes 0 or 1 |
| `Calibration.ValidOne` | scripts/eval-demand-boundary.ts:202-218 | A confidence outside [0, 1] leaves nothing, any other itself and whether there was a demand |
| `Calibration.ValidSplits` | scripts/eval-demand-boundary.ts:213-218 | fixture by fixture, in order |
| `Calibration.Calibrate` | scripts/eval-demand-boundary.ts:208-242 | Brier score, calibration error and number of the valid examples |
| `Calibration.WeighBuckets` | scripts/eval-demand-boundary.ts:224-240 | The bucket loop visits the five buckets |
| `Calibration.SquaredError` | scripts/eval-demand-boundary.ts:219-223 | The squared error is that of the probability against what happened |
| `Calibration.OneBucketEach` | scripts/eval-demand-boundary.ts:225-232 | Every valid example falls into exactly one bucket: by its fifth, and 1 itself into the last |
| `Calibration.BucketsPartition` | scripts/eval-demand-boundary.ts:225-232 | Any sum over the examples is the sum over the buckets |
| `Calibration.CalibrationBounds` | scripts/eval-demand-boundary.ts:219-241 | The gap of the means is at most the calibration error, which is at most 1 and whose square is at most the Brier score |
| `Digest.Fnv1a64` | scripts/evaluate-skill-provenance.ts:61-68 | The digest is the rendered fold of the code units |
| `Digest.KnownDigests` | scripts/evaluate-skill-provenance.ts:61-68 | The published FNV-1a values of the empty text and of `a` |
| `Digest.RenderShape` | scripts/evaluate-skill-provenance.ts:67 | The printed digest is the prefix and sixteen hexadecimal digits that spell the state |
| `Digest.StepBijective` | scripts/evaluate-skill-provenance.ts:64-65 | For a fixed unit a step is a bijection of the 64-bit state, with its inverse |
| `Digest.StepInjectiveInUnit` | scripts/evaluate-skill-provenance.ts:64-65 | For a fixed state different units give different states |
| `Digest.FoldInjective` | scripts/evaluate-skill-provenance.ts:63-66 | A common suffix never merges two states |
| `Digest.RenderInjective` | scripts/evaluate-skill-provenance.ts:67 | The printed digest determines the state |
| `Digest.DigestSensitivity` | scripts/evaluate-skill-provenance.ts:61-68 | Strings that differ in exactly one code unit never share a digest |
| `SeededShuffle.Generator.constructor` | scripts/eval-learning-surface.ts:73-81 | The state after sixteen warm-up draws |
| `Words.MixLeftBijective` | scripts/eval-learning-surface.ts:76-78 | A word mixed with its own left shift can be undone, for any positive distance |
| `Words.MixRightBijective` | scripts/eval-learning-surface.ts:76-78 | and with its own right shift |
| `Words.WordValue` | scripts/eval-learning-surface.ts:73-82 | A word's number is below 2^32, 0 for no bits and the largest for all, and determines the word |
| `SeededShuffle.StepBijective` | scripts/eval-learning-surface.ts:75-79 | The round is a bijection on 32-bit words and fixes zero |
| `SeededShuffle.StepOfOneBit` | scripts/eval-learning-surface.ts:75-79 | What the round makes of the lowest and of the highest bit, which fixes its three distances |
| `SeededShuffle.RewindIterate` | scripts/eval-learning-surface.ts:75-82 | Any number of rounds can be undone, and reaches zero only from zero |
| `SeededShuffle.DrawsInUnitInterval` | scripts/eval-learning-surface.ts:73-83 | For every seed and draw the number is above 0 and at most 1 |
| `SeededShuffle.SeededShuffle` | scripts/eval-learning-surface.ts:73-95 | After any number of earlier draws the shuffle rearranges its input for every seed except those with one 32-bit pattern, and never loses an item |
| `SeededShuffle.SpoilingSeedExists` | scripts/eval-learning-surface.ts:73-95 | For any number of earlier draws a seed with that pattern exists, and its next draw is exactly 1 |
| `FisherYates.Pick` | scripts/eval-learning-surface.ts:88 | The picked index is the whole part of the product, in range unless the draw is exactly 1 |
| `FisherYates.Shuffle` | scripts/eval-learning-surface.ts:85-95 | The loop performs the exchanges of the reference shuffle |
| `FisherYates.ContentsKept` | scripts/eval-learning-surface.ts:85-95 | The contents are kept, except that a first draw of 1 adds one hole; later draws of 1 do no harm |
| `FisherYates.ShufflesAreRearrangements` | scripts/eval-learning-surface.ts:85-95 | With draws below 1 exactly the rearrangements of the input can come out, all of them |
| `TaskInterleaving.BuildTasks` | scripts/evaluate-gepa-discriminative-search.ts:89-139 | Every kind comes out as often as requested, a negative count read as zero, exactly when the request does not mix signs; the k-th discriminating task belongs to component k mod 8, no other task to any; tasks cycle through the kinds that are left |
| `TaskInterleaving.NegativeCountLosesTask` | scripts/evaluate-gepa-discriminative-search.ts:93-106 | Counts of -1 and 2 yield one task of the two requested |
| `TaskInterleaving.Remaining` | scripts/evaluate-gepa-discriminative-search.ts:107-112 | Exactly the kinds with something left, in their fixed order |
| `TaskInterleaving.SomethingRemains` | scripts/evaluate-gepa-discriminative-search.ts:106-113 | The list that is indexed is never empty |
| `TaskInterleaving.NeighboursDiffer` | scripts/evaluate-gepa-discriminative-search.ts:99-113 | While no kind runs out and two are left, neighbours differ |
| `TaskInterleaving.FairOwnership` | scripts/evaluate-gepa-discriminative-search.ts:124-135 | Two components never differ by more than one owned task |
| `OrderMetric.Positions` | scripts/evaluate-interaction-timeline.ts:338 | Each id is mapped to its last position |
| `OrderMetric.PairwiseTemporalOrderFidelity` | scripts/evaluate-interaction-timeline.ts:334-356 | The fraction of pairs whose last occurrences are in order |
| `OrderMetric.CountIsSize` | scripts/evaluate-interaction-timeline.ts:341-354 | The double loop counts the pairs of a set |
| `OrderMetric.PairTotal` | scripts/evaluate-interaction-timeline.ts:341-343 | It visits n(n-1)/2 pairs |
| `OrderMetric.FullMarks` | scripts/evaluate-interaction-timeline.ts:334-356 | The score lies in [0, 1] and, for two ids or more, is 1 exactly when every id occurs and the last positions of neighbours strictly increase |

## Left out

- AWS clients, regions and their configuration, `invokeWithFailover`, embeddings and logging: a regional request is an outcome, and the non-streaming failover is the same loop without events.
- BedrockChatReq.CreateChatReq: leaves out the rest of a Converse request (thinking and effort settings, structured output, inference settings and service tiers), which is branching without state; its refusals are one flag.
- MIME lookups and JSON parsing: request payloads are opaque, and whether a lookup accepts one is part of the payload. Audio and URL tool results arrive as their text.
- StreamEqualsBatch.StreamEqualsBatch: lets an object, array, number or boolean be sent as any text, also one that is no JSON text of it, and takes what JSON.stringify prints for it as given; a character is a Unicode scalar, so lone surrogates in a string are not covered.
- StreamedThoughts.ThoughtsJoin: joins the pieces of each block by the block they belong to; the merge of thought blocks in src/ax/mem/memory.ts, which does not know the blocks, is not part of this model.
- BedrockFailover.CreateConverseStream: what an abort does to a region that is being read is part of that region's outcome; the controller is reduced to what it records, throws and ignores once the reader has cancelled.
- StreamPipeline.Relay: stamps usage and provider metadata only; remote ids, session ids, spans and cost records of the engine are not part of it, nor are the counts without a use in the parts (`noCache`, text tokens).
- `createProviderMetadata` in src/aisdk/provider.ts: a chunk carries what that function extracts, in the pipeline the same for all responses to one request.
- SiblingRoutes knows an ingress by its writer only; the step type is the `idle` that the replay writes, and `instanceKey` of a missing function is the text the source would print. Diagnostics are dropped.
- WakeSchedule.Simulate: leaves out the report's other figures (resets, time to cap, largest interval, ladder disagreements), which nothing in the loop depends on.
- MindPacer takes the fuse as a number, because its default goes through logarithms, and a whole-number ladder factor.
- TrajectoryStore.IndexOfThoughts: starts from the number in a step id; an id that spells no number has no index in the source either. The two clocks, `getStep` and `stats` are not modelled.
- Summaries, themes and ids of sealed blocks; only their extent is modelled.
- IndexGenerator.GenerateIndex: takes `localeCompare` as an arbitrary strict total order and starts from the export map; the syntax-tree walk, the file system and the formatter are not part of it. An order that calls different strings equal is not covered.
- IndexFile.GenerateIndexContent: is read back for names without blanks, commas, braces and line ends, as all identifiers are, and paths without line ends.
- Sorting is a stable insertion sort standing for Array.prototype.sort.
- `counts` in scripts/eval-demand-boundary.ts: four tallies whose contract would repeat them. A Brier score of no examples, which the source leaves as not-a-number, is absent.
- Floating-point rounding in the calibration, the generator's fraction and the shuffle's index.
- SeededShuffle.SeededShuffle: takes a whole-number seed.
