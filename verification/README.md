# Verified model of the chat platform's core

The platform keeps chat sessions in a database, talks to language models through several providers, lets
models call tools, streams answers to browsers, and limits what guests and users may do. This project
models the parts of it where an error is easy to make and hard to notice, in Dafny 4.11, and proves what
they promise for every input, every interleaving and every run. `dafny verify dfyconfig.toml` checks all
of it.

## What is here

| files | part of the system |
|---|---|
| `ChatRows`, `TurnProtocol`, `TurnGuarantees`, `TurnSchedules`, `TurnStore`, `ToolTurns`, `ChatFrames` | the chat store, and chat turns that run concurrently on one session |
| `RateLimiter`, `RoleCache` | the sliding-window rate limiter, and the cache of roles its limits depend on |
| `ToolHistory`, `ToolLoops`, `ToolLoopGuarantees` | the blocking and the streaming tool loop |
| `Translators`, `GeminiTranslator`, `TranslatorGuarantees`, `GeminiSchema` | the Anthropic and Gemini forms of a history, and the Gemini schema cleaner |
| `PcmCapture`, `NdjsonProgress`, `VoiceSocket` | streams that arrive in arbitrary pieces and must leave whole |
| `GuestQuota`, `UploadQuota`, `UploadTransactions`, `Retry` | daily quotas, and retries with backoff |
| `Wrappers`, `JsonValues` | shared values |

**Chat turns.** `TurnProtocol` is a state machine whose steps are single store calls. Any number of
requests and summary deletions interleave between them, and each may be cancelled at any point; a request
is one transaction. `TurnGuarantees` proves what holds in every reachable state. `TurnStore` then has the
store and the service as classes that update their rows in place, and proves that their methods follow the
machine: the ghost state each returns is reached by a schedule of it. What the other requests and deletions
do enters as the machine states `found` and `granted`, met at the key lookup and at the grant of the row
lock, and from then on as the actions `others(n)` they attempt before the turn's step `n`
(`TurnSchedules`); `seen(n)` is what a statement then finds of the committed summaries.

**Oracles.** Providers, tools, the summariser and the client's connection answer arbitrarily. JSON is a
printer and a parser with the laws that matter (parsing undoes printing, and a printed value is one line).
Times, delays and multipliers are reals. Clock readings, jitter, generated ids and the outcome of foreign
calls are parameters.

## Where the code and the expectation differ

Each of these is stated as an exact condition, and shown by a concrete run or input.

- Summary versions are 1..n only while no summary deletion races with a turn: the deletion does not take
  the session's row lock, so a turn that has read a summary, and has enough messages pending, may store its
  successor after the deletion. A deletion is harmless, for every later schedule, exactly when it removes
  nothing, or removes every summary while no such turn is open (`DeleteKeepsNumberingIffClean`,
  `VersionsAreOneToN`; `DeletionRace` is a concrete run). The transcript is still covered exactly once.
- For the same reason a turn that found too few messages to summarise may leave a long tail behind
  (`TailAfterCommit`, `LongTail`). With a threshold below one, which the settings accept, no tail is ever
  shorter than the threshold.
- A retry of a blocking turn whose provider failed is answered with the empty text stored for it, where the
  first client got an error (`RetriedReply`, `FailedTurnIsReplayed`). A turn of the tool service is stored as
  complete even when its text is empty (`OutcomeOfRun`).
- A replay always closes with `end`, also when the turn it repeats had ended in an error or an
  interruption; its text is right in every case (`ReplayMatchesOriginal`,
  `FailedStreamIsReplayed`).
- A tool that answers a signed-in caller `forbidden`, within the cap and in a round that no call breaks, ends
  the streaming loop but not the blocking one. For all other answers of provider and tools, and for every
  other caller, the two loops end alike (`LoopsAgreeUnlessForbidden`, `LoopsDiffer`).
- A Gemini function response carries a wrong name exactly when its round holds two calls with one id and
  different names, or a call with a name but no id (`NamesRightIffUnambiguous`, `WrongName`; generated ids are taken to
  be unused ones).
- A call that came without an id gets a generated one that no result refers to (`MeaningKeptIff`,
  `MissingId`).
- A rate limit that is not positive reads an empty deque (`AdmitsIffLogHasRoom`, `ZeroLimitCrashes`); the middleware never
  passes one (`ScaledLimitsHold`).
- The upload quota's insert does not look at the quota, so a quota of zero would admit one upload a day;
  settings require at least one (`QuotaHoldsIffPositive`).
- Guests can exceed the daily quota by as many messages as they have other requests in flight, and no
  more (`CountIsBounded`, `BoundIsReached`).
- A frame size of zero would keep the capture's copy loop from ending (`PassAdvancesIff`).

## Model

| member | source | states |
|---|---|---|
| `TurnProtocol.StepKeeps` | backend-python/app/services/chat_service.py:1110-1240 | Every store call of every open turn, every answer, cancellation and summary deletion keeps the session invariant: gap-free numbers, whole turns, unique keys, a sound summary chain, one lock holder |
| `TurnProtocol.RunKeeps` | backend-python/app/services/chat_service.py:1110-1240 | The invariant holds after every schedule of any number of interleaved requests |
| `TurnProtocol.NeverWaits` | backend-python/app/db/chat.py:141-189 | A turn that holds the session row lock never waits for another transaction to insert its row |
| `TurnProtocol.PriorHasReply` | backend-python/app/services/chat_service.py:1114-1131 | Whenever a key is found, the row one number later is the assistant row of the same turn |
| `TurnProtocol.SummaryWritten` | backend-python/app/services/chat_service.py:1039-1047 | A summary written in any reachable state has a fresh version, the summariser's text, and stands for the whole transcript up to the last row of the current turn |
| `TurnProtocol.CommitRows` | backend-python/app/routers/chat.py:137-151 | Committing a turn on top of whole turns leaves whole turns, numbered without a gap, with distinct keys |
| `TurnProtocol.DeleteKeeps` | backend-python/app/db/chat.py:306-312 | A deletion that commits between any two steps of open turns, with any number of others pending, keeps the invariant |
| `TurnGuarantees.TranscriptIsWholeTurns` | backend-python/app/db/chat.py:141-189 | In every reachable state numbers are exactly 1..next_seq-1 and every user row is followed at seq+1 by the assistant row of its own request |
| `TurnGuarantees.FinishedOwnsOneTurn` | backend-python/app/services/chat_service.py:1110-1240 | A finished request owns exactly two rows of the transcript, next to each other, and no others |
| `TurnGuarantees.OthersOwnNothing` | backend-python/app/routers/chat.py:137-151 | A request that failed, replayed or is still open has put no row in the committed transcript |
| `TurnGuarantees.AtMostOncePerKey` | backend-python/app/db/models.py:187-193 | However requests with one client_message_id interleave, at most one of them commits a turn |
| `TurnGuarantees.ReplayAnswersWithStoredReply` | backend-python/app/services/chat_service.py:1114-1131 | A request that found its key answers with the reply the owner of the key stored; there always is one |
| `TurnGuarantees.KnownKeyIsReplayed` | backend-python/app/services/chat_service.py:1392-1405 | Looking up a committed key always leads to a replay, and the replay leaves store and lock as they were |
| `TurnGuarantees.InsertFailsIffDuplicate` | backend-python/app/db/models.py:187-193 | The user row insert is the only one that can fail, and it fails exactly when the key was committed after this request looked it up |
| `TurnGuarantees.RunGrows` | backend-python/app/db/chat.py:161-189 | Every run only appends to the transcript and leaves ended requests as they ended |
| `TurnGuarantees.RetryIsStable` | backend-python/app/services/chat_service.py:1392-1405 | A reply once stored is what every later retry of its key gets, whatever runs in between |
| `TurnGuarantees.NoDeadlock` | backend-python/app/db/chat.py:141-159 | An open turn can step, or it waits for the row lock and then the holder can step |
| `TurnGuarantees.SummariesCoverTranscript` | backend-python/app/services/chat_service.py:991-1053 | Versions and covered prefixes strictly grow, every summary stands for exactly its prefix, and latest summary plus tail is the whole transcript, each message once |
| `TurnGuarantees.TailAfterCommit` | backend-python/app/services/chat_service.py:999-1047 | For any threshold: a turn that summarised, or found nothing due, leaves a tail below it if and only if it is at least one and the turn summarised, or its summary still stands, or the whole transcript is short |
| `TurnGuarantees.LongTail` | backend-python/app/db/chat.py:306-312 | A reachable turn that found nothing due and, its summary deleted before its commit, leaves a tail as long as the threshold |
| `TurnGuarantees.DeleteKeepsNumberingIffClean` | backend-python/app/db/chat.py:306-312 | Where versions are bound to stay 1..n, a deletion that commits leaves them so, for every later schedule without a deletion, if and only if it removes nothing, or it removes every summary while no open turn has read one and has enough messages pending to store its successor |
| `TurnGuarantees.VersionsAreOneToN` | backend-python/app/services/chat_service.py:1039-1047 | Throughout a run the stored versions are, and are bound to stay, 1..n if and only if every deletion that commits in it is of that kind |
| `TurnGuarantees.SafeIff` | backend-python/app/services/chat_service.py:1039-1047 | Every later schedule without a deletion stores versions 1..n if and only if the first stored version is 1 and, with none stored, no open turn is about to extend a deleted summary |
| `TurnGuarantees.RunToSuccessor` | backend-python/app/services/chat_service.py:999-1047 | Such a turn can always be run on to a lone summary of version 2 or more |
| `TurnGuarantees.FromOneStays` | backend-python/app/services/chat_service.py:1039-1047 | From a state that numbers from 1, every schedule without a deletion stores versions 1..n |
| `TurnSchedules.OthersHold` | backend-python/app/db/chat.py:141-159 | While a turn holds the row lock, whatever the others attempt leaves its state, the lock and the committed rows as they were |
| `TurnGuarantees.DeletionRace` | backend-python/app/db/chat.py:306-312 | A concrete run in which a deletion races with a turn and the only stored summary has version 2 |
| `ChatRows.ContextIsTranscript` | backend-python/app/services/chat_service.py:976-989 | Latest summary then later messages, as read back for a context, is the whole transcript in order |
| `ChatRows.AfterIsSuffix` | backend-python/app/db/chat.py:263-274 | On a gap-free session the messages after a number are the suffix past it |
| `ChatRows.BySeqIsIndex` | backend-python/app/db/chat.py:210-218 | On a gap-free session a number in range finds exactly its row, any other finds none |
| `ChatRows.LatestIsLast` | backend-python/app/db/chat.py:276-282 | With consecutive versions the latest summary is the last one stored |
| `TurnStore.SqlChatStore.AllocateSeq` | backend-python/app/db/chat.py:141-159 | Hands out next_seq and advances it by one |
| `TurnStore.SqlChatStore.AddMessage` | backend-python/app/db/chat.py:161-189 | Appends the row unless some row has its number, or has its key when it has one |
| `TurnStore.ChatService.FindPrior` | backend-python/app/services/chat_service.py:1114-1131 | Replays exactly when the key is found, with the reply the protocol gives; follows the protocol |
| `TurnStore.ChatService.AppendUser` | backend-python/app/services/chat_service.py:1133-1145 | The user row takes the next number; a key committed meanwhile rolls the request back and nothing stays |
| `TurnStore.ChatService.AppendReply` | backend-python/app/services/chat_service.py:1194-1204 | The assistant row takes the number after the user row in the same transaction and never clashes |
| `TurnStore.ChatService.MaybeSummarize` | backend-python/app/services/chat_service.py:991-1053 | Whatever deletions commit between its statements: when the rows past those the last summary it saw covers reach the threshold and the summariser answers, exactly one summary is added to what they have left, with the summariser's text, the next version and all rows covered; otherwise none |
| `TurnStore.PendingOfTurn` | backend-python/app/services/chat_service.py:1000-1003 | What a turn that has stored its reply finds pending is every row its latest summary does not cover, and the summary written from it is of all rows |
| `TurnStore.ChatService.FinishTurn` | backend-python/app/services/chat_service.py:1194-1223 | The rest of a turn with the others moving between any two of its steps: the committed session, as a state the protocol reaches |
| `TurnStore.ChatService.CancelTurn` | backend-python/app/routers/chat.py:144-151 | A request cancelled at any point leaves exactly what the others have committed |
| `TurnStore.ChatService.BeginTurn` | backend-python/app/services/chat_service.py:1370-1421 | Ends in a replay that leaves the session as found, in a user row on top of what was committed while waiting, or in a rollback exactly for a duplicate key |
| `TurnStore.ChatService.CompleteChat` | backend-python/app/services/chat_service.py:1110-1240 | The whole blocking turn, with the others moving while it waits for the lock and between any two of its steps after that. A turn that ends has added two rows: the request's prompt and key, then the answer with its finish reason, complete, if it holds anything but white space, and otherwise an empty errored row; the client is told the answer or an error accordingly. A replay tells the row right after the one with the key |
| `ToolTurns.ToolChatService.CompleteChat` | backend-python/app/services/tool_chat_service.py:113-271 | A turn of the tool service, with the others moving as above: the prompt and key, then the text and finish reason its loop ended with, complete, even an empty text; an empty errored row and an error only for a loop that broke |
| `ToolTurns.StoredByEnding` | backend-python/app/services/tool_chat_service.py:189-240 | With tools offered an answered turn stores content and finish reason of the answer without calls that the provider gives to the final history, otherwise those of the plain answer; a denial, only without an account, its message with stop; the cap what the provider said with its last calls, or the limit message, with tool_iteration_cap; an error if and only if the loop broke |
| `TurnStore.ConversationSummaryService.ClearSummary` | backend-python/app/ai/memory/summarizer.py:201-223 | The summary deletion of a request, with everyone else moving until it commits: it removes what it saw of the summaries others have left by then and nothing else, as the protocol does |
| `TurnStore.ChatService.StreamChat` | backend-python/app/services/chat_service.py:1440-1595 | For every provider stream and client, with the others moving between any two of its steps: a start, one delta for each event with text before the stop, in order, then the last finish reason given for a complete row, an error for an errored one, nothing for an interrupted one; the stored row holds exactly the deltas' text |
| `TurnStore.ChatService.ReadStream` | backend-python/app/services/chat_service.py:1480-1520 | The deltas are, one for one and in order, the contents of the non-empty chunks before the stop, which is the first poll that finds the client gone, the first raise, or the end; which of them it was fixes status and finish reason: the last non-empty one of a complete stream, stop only if there is none |
| `ChatFrames.SentIsUnique` | backend-python/app/services/chat_service.py:1480-1512 | The events before the stop determine the deltas |
| `TurnStore.RetriedStream` | backend-python/app/services/chat_service.py:1440-1453 | A retry of a streamed turn is sent the text the first client was sent, whatever ran in between, and closes the same way exactly when that turn had completed |
| `TurnStore.RetriedReply` | backend-python/app/services/chat_service.py:1114-1131 | A retry of a blocking turn is told the stored text, and is told what the first client was told if and only if the turn completed |
| `TurnGuarantees.FailedTurnIsReplayed` | backend-python/app/services/chat_service.py:1174-1192 | A reachable failed turn whose retry is answered with the empty text stored for it |
| `ChatFrames.ReplayMatchesOriginal` | backend-python/app/services/chat_service.py:1440-1453 | A replay joins to the text of the original frames, ends with the stored finish reason or stop, and closes as the original did if and only if the original completed |
| `ChatFrames.FailedStreamIsReplayed` | backend-python/app/services/chat_service.py:1442-1453 | A stream that fails at once closes with an error, and its replay with end |
| `ChatFrames.StoresIsUnique` | backend-python/app/services/chat_service.py:1455-1595 | Provider events and client determine the stored text, status and finish reason |
| `RateLimiter.SlidingWindowRateLimiter.Check` | backend-python/app/middleware/rate_limit.py:55-71 | One call is admitted if and only if fewer than limit of all admissions ever made lie in (now-60, now], and is recorded then; a refused one is told the whole seconds within the last of which the oldest of them expires; every other bucket is left alone |
| `RateLimiter.PrunedCountsLog` | backend-python/app/middleware/rate_limit.py:60-63 | The pruned deque holds exactly as many entries as the full log has admissions in (now-60, now] |
| `RateLimiter.CountIsNumber` | backend-python/app/middleware/rate_limit.py:60-63 | Counting admissions in a window is the number of log entries whose time lies in it, its start excluded and its end included |
| `RateLimiter.AdmitsIffLogHasRoom` | backend-python/app/middleware/rate_limit.py:65-71 | A call is admitted if and only if the full log has fewer than limit admissions in the window, and reads an empty deque if and only if the limit is not positive and none is there |
| `RateLimiter.ZeroLimitCrashes` | backend-python/app/middleware/rate_limit.py:65-66 | A first call with a limit of zero reads the empty deque |
| `RateLimiter.NoWindowExceedsLimit` | backend-python/app/middleware/rate_limit.py:48-71 | With limits up to L, no window (t-60, t] over the whole history holds more than L admissions, for any time t |
| `RateLimiter.LaterCallAdmittedIff` | backend-python/app/middleware/rate_limit.py:60-71 | With no call in between, a later call is admitted exactly when the limit-th newest entry has left the window |
| `RateLimiter.NeverOverfull` | backend-python/app/middleware/rate_limit.py:65-71 | Under a fixed limit a bucket never holds more than the limit |
| `RateLimiter.RetryAfterIsExact` | backend-python/app/middleware/rate_limit.py:65-68 | Under a fixed limit retry-after is between 1 and 60 and is the least whole number of seconds that works: a retry is admitted exactly from the moment the oldest entry expires, within the last of them |
| `RateLimiter.EffectiveLimit` | backend-python/app/middleware/rate_limit.py:181-194 | The tier's limit, or the largest whole number up to its product with the role's multiplier and at least one; a negative multiplier counts as zero |
| `RateLimiter.ScaledLimitsHold` | backend-python/app/middleware/rate_limit.py:181-204 | However roles change a caller's limit, the empty deque is never read and no window exceeds the largest effective limit |
| `RoleCache.StepKeeps` | backend-python/app/middleware/rate_limit.py:96-127 | Every step of every caller keeps: entries come from loads, none is newer than its entry, and a loading caller holds the lock |
| `RoleCache.LoadsAreSpaced` | backend-python/app/middleware/rate_limit.py:106-127 | In any interleaving two successful loads for one user are at least the time to live apart |
| `RoleCache.RolesAreRecent` | backend-python/app/middleware/rate_limit.py:96-127 | Every returned role was just loaded, or by an entry stamped less than the time to live ago; with none nothing is cached |
| `RoleCache.OneLoadAtATime` | backend-python/app/middleware/rate_limit.py:106-127 | No two callers load at the same time |
| `ToolLoops.ExecuteToolCalls` | backend-python/app/services/tool_chat_service.py:355-372 | The calls of one answer run in order, one result each, any denial remembered; a raise loses the round |
| `ToolLoops.BlockingEnds` | backend-python/app/services/tool_chat_service.py:318-397 | An answered run ends with a history to which the provider gives an answer without calls, and with its content and finish reason; a denied one is without an account; a capped one has run every round; in a broken one the provider or a tool raised |
| `ToolLoops.RunToolLoop` | backend-python/app/services/tool_chat_service.py:284-397 | For every provider, executor and caller: without tools text and finish reason of one plain answer, nothing for a provider that cannot call them, otherwise those of the first answer without calls, a denial or the cap |
| `ToolLoops.ExecuteStreamToolCalls` | backend-python/app/services/unified_chat_service.py:566-606 | The same for the streaming loop, with one start and one end frame around each call |
| `ToolLoops.StreamingEnds` | backend-python/app/services/unified_chat_service.py:521-635 | The same for the streaming loop, which is disconnected exactly at a history where the poll finds the client gone |
| `ToolLoops.RunStreamToolLoop` | backend-python/app/services/unified_chat_service.py:512-635 | The streaming run for every provider, executor, caller and client, with or without tools: which of the five endings it has, by the client and the provider at its final history |
| `ToolLoopGuarantees.BlockingHistory` | backend-python/app/services/tool_chat_service.py:316-397 | With tools offered: at every normal exit the history is one system message, the unchanged request, then rounds of calls with one result per call, same ids, same order; at most the cap |
| `ToolLoopGuarantees.StreamingHistory` | backend-python/app/services/unified_chat_service.py:521-635 | The same for the streaming loop, and its frames alternate start and end and announce exactly those calls in order |
| `ToolLoopGuarantees.CapText` | backend-python/app/services/tool_chat_service.py:386-397 | At the cap the text is what the provider said with the last calls in the history, and the limit message only if it said nothing |
| `ToolLoopGuarantees.ModelIsShownResults` | backend-python/app/services/tool_chat_service.py:413-452 | Each result in the history parses back to success, data, error and error code of what the tool answered on the history before it; without an account to a refusal, and no tool runs |
| `ToolLoopGuarantees.StreamShowsResults` | backend-python/app/services/unified_chat_service.py:637-657 | A streamed call shows the same result, or a fixed one once the client has gone, between its own start and end frames, and the end frame reports success exactly when the tool did and was not forbidden |
| `ToolLoopGuarantees.SameBatch` | backend-python/app/services/unified_chat_service.py:637-657 | With the client connected both executors run the calls of an answer to the same history and the same denials |
| `ToolLoopGuarantees.LoopsAgreeUnlessForbidden` | backend-python/app/services/unified_chat_service.py:527-635 | With the same answers and a connected client both loops end alike, with the same history, rounds, cap text and finish reason, if and only if no tool answers a signed-in caller forbidden within the cap in a round that no call breaks |
| `ToolLoopGuarantees.LoopsDiffer` | backend-python/app/services/unified_chat_service.py:608-615 | A provider and a tool for which the streaming loop ends in a denial and the blocking one at the cap |
| `ToolLoopGuarantees.StreamDeniedIffForbids` | backend-python/app/services/unified_chat_service.py:598-615 | The streaming loop ends a signed-in caller's run in a denial if and only if some tool answers forbidden in such a round |
| `ToolLoopGuarantees.DeniedIffForbidden` | backend-python/app/services/tool_chat_service.py:445-452 | A signed-in caller's batch is denied if and only if one of its tools answered forbidden |
| `ToolLoopGuarantees.SignedInNeverDenied` | backend-python/app/services/tool_chat_service.py:373-379 | The blocking loop never ends in a denial for a signed-in caller |
| `Translators.SplitForAnthropic` | backend-python/app/providers/anthropic_provider.py:61-136 | The Anthropic output, read back, has the turns of the source in order, and the system texts joined in order |
| `Translators.SystemPromptSplits` | backend-python/app/providers/anthropic_provider.py:67-136 | The system prompt of a history cut anywhere is the prompt of the first part, a blank line and that of the second |
| `Translators.SystemPromptOfOne` | backend-python/app/providers/anthropic_provider.py:68-82 | A system message contributes its text, an empty dictionary text and every other message nothing |
| `Translators.AnthropicOf` | backend-python/app/providers/anthropic_provider.py:67-133 | One message becomes at most one Anthropic message with the same meaning, role and text; system messages become none |
| `Translators.ParseArguments` | backend-python/app/providers/anthropic_provider.py:45-58 | The arguments are always an object: the one given or parsed, and empty when there is none |
| `GeminiTranslator.ToGeminiContents` | backend-python/app/providers/gemini_provider.py:79-182 | The Gemini output, read back, has the turns of the source in order, the joined system texts, and function responses named from the calls before them |
| `GeminiTranslator.GeminiParts` | backend-python/app/providers/gemini_provider.py:120-151 | The parts of an assistant message mean its text and calls in order, and its names are remembered |
| `GeminiTranslator.NamesRightIffUnambiguous` | backend-python/app/providers/gemini_provider.py:135-169 | Whatever ids earlier rounds used, every function response of a round carries the name of its own call if and only if no two calls of that round share an id but not a name and no call without an id has a name |
| `GeminiTranslator.WrongName` | backend-python/app/providers/gemini_provider.py:135-169 | A round of two calls with one id, whose first response carries the name of the second call |
| `GeminiTranslator.NameGivenIsLast` | backend-python/app/providers/gemini_provider.py:135-169 | A response carries the name of the last call of its own round with its id, and none when its call came without one |
| `TranslatorGuarantees.MeaningKeptIff` | backend-python/app/providers/anthropic_provider.py:99-106 | A translation denotes exactly the source's texts, calls and results if and only if no function call lacks an id |
| `TranslatorGuarantees.MissingId` | backend-python/app/providers/anthropic_provider.py:99-106 | A call without an id, whose translation differs from its source |
| `TranslatorGuarantees.IssuedCallsComeBack` | backend-python/app/services/tool_chat_service.py:455-477 | Calls a completion issued come back from its history message with the same ids, names and arguments |
| `GeminiSchema.AtCommutes` | backend-python/app/providers/gemini_provider.py:196-215 | Cleaning follows the schema positions: the same paths through properties and items lead somewhere before and after, to the cleaned form of what was there |
| `GeminiSchema.CleanEverywhere` | backend-python/app/providers/gemini_provider.py:185-215 | Every position of a cleaned schema holds an object without any of the five unsupported keys |
| `GeminiSchema.OtherKeysKept` | backend-python/app/providers/gemini_provider.py:196-215 | At every position every other key keeps its value, schemas below it apart, and what is no object becomes the type object |
| `GeminiSchema.NamesKept` | backend-python/app/providers/gemini_provider.py:206-211 | No property is dropped, renamed or moved |
| `GeminiSchema.Idempotent` | backend-python/app/providers/gemini_provider.py:196-215 | Cleaning twice is cleaning once |
| `PcmCapture.ChunksConserve` | frontend/public/audio-worklets/pcm-capture-processor.js:42-59 | Frames and rest are exactly the samples, every frame is full |
| `PcmCapture.RestIsRemainder` | frontend/public/audio-worklets/pcm-capture-processor.js:24-34 | The flush is as long as the number of samples modulo the frame size |
| `PcmCapture.ChunksSplit` | frontend/public/audio-worklets/pcm-capture-processor.js:36-61 | Cutting the samples anywhere changes no frame |
| `PcmCapture.FramesAreTagged` | frontend/public/audio-worklets/pcm-capture-processor.js:50-55 | Each frame is posted as one message, in order, under the generation of its capture |
| `PcmCapture.PcmCaptureProcessor.CopyAll` | frontend/public/audio-worklets/pcm-capture-processor.js:42-59 | The copy loop ends, and posts and keeps the frames and the rest of pending plus new samples |
| `PcmCapture.PcmCaptureProcessor.Process` | frontend/public/audio-worklets/pcm-capture-processor.js:36-61 | However samples are split over calls, what was posted since the start are the frames of all of them |
| `PcmCapture.PcmCaptureProcessor.OnStart` | frontend/public/audio-worklets/pcm-capture-processor.js:12-16 | A start begins an empty capture under its generation and posts nothing |
| `PcmCapture.PcmCaptureProcessor.OnStop` | frontend/public/audio-worklets/pcm-capture-processor.js:17-34 | With a positive frame size the messages since the start hold exactly the captured samples, in order |
| `PcmCapture.CaptureConserves` | frontend/public/audio-worklets/pcm-capture-processor.js:24-59 | The frames of a capture and its flush join to its samples |
| `PcmCapture.PassAdvancesIff` | frontend/public/audio-worklets/pcm-capture-processor.js:43-48 | A pass of the copy loop makes progress if and only if the frame size is positive |
| `NdjsonProgress.LinesSplit` | frontend/src/api/chatClient.ts:172-174 | Cutting a text anywhere changes no line when the unfinished part is kept |
| `NdjsonProgress.LinesRejoin` | frontend/src/api/chatClient.ts:172-174 | The lines, each with its newline, and what is left over make up the text, and none of them has a newline inside |
| `NdjsonProgress.SendChatWithProgress` | frontend/src/api/chatClient.ts:164-188 | For every split into chunks the client reports the phases and the result of the lines of the whole text, up to the first that ends it |
| `NdjsonProgress.StreamNdjson` | backend-python/app/routers/chat.py:121-134 | The server writes one line per activity before the first other event, then the response line, or raises |
| `NdjsonProgress.StreamActivities` | backend-python/app/routers/chat.py:123-127 | One line per activity, in order, up to the first other event |
| `NdjsonProgress.SuccessRoundTrips` | frontend/src/api/chatClient.ts:164-188 | A successful server run arrives whole: the same phases in order, and the same response as the result |
| `NdjsonProgress.BadLineThrows` | frontend/src/api/chatClient.ts:175-184 | A line that does not parse ends the exchange in an error after the phases before it |
| `NdjsonProgress.TruncationIsAPrefix` | frontend/src/api/chatClient.ts:164-188 | A text cut short before its last newline gives a prefix of the phases and an error |
| `VoiceSocket.VoiceWebSocketHandler.Run` | backend-python/app/routers/voice.py:202-259 | Over every message sequence, cut off by a session end, an expiry or the disconnect, the turns and the buffer are those of the frames read, and no turn is left running |
| `VoiceSocket.Served` | backend-python/app/routers/voice.py:202-259 | The frames read are a prefix: it ends where the session has expired, after the first session end, or with the last frame |
| `VoiceSocket.VoiceWebSocketHandler.Receive` | backend-python/app/routers/voice.py:203-257 | One frame: an interrupt, and audio while a turn is active, discard the buffer first; a final chunk then hands the buffer with itself to a turn and leaves only it in flight; any other decoded chunk is buffered |
| `VoiceSocket.VoiceWebSocketHandler.HandleAudioIn` | backend-python/app/routers/voice.py:283-317 | A final chunk hands the buffer to a new turn, cancels the old one and empties the buffer; an undecodable one changes nothing |
| `VoiceSocket.VoiceWebSocketHandler.AtMostOneTurn` | backend-python/app/routers/voice.py:309-325 | At most one turn is in flight, and it is the last one started |
| `VoiceSocket.TurnHoldsItsUtterance` | backend-python/app/routers/voice.py:228-317 | The turn a final chunk starts holds exactly the decoded chunks from just after the final chunk before it, or from a barge-in since then, up to itself |
| `VoiceSocket.TurnHasItsFinalChunk` | backend-python/app/routers/voice.py:303-317 | Every started turn is the one of some final chunk |
| `VoiceSocket.EveryChunkOnce` | backend-python/app/routers/voice.py:228-317 | Started turns and discards in order, then the buffer, are exactly the decoded chunks: none lost, repeated or reordered |
| `VoiceSocket.StartedAreTurns` | backend-python/app/routers/voice.py:303-317 | The lots that are not discards are exactly the started turns, in order |
| `GuestQuota.CountIsBounded` | backend-python/app/services/quota_service.py:84-98 | With at most k requests in flight no daily count exceeds quota-1+k on any day of any run, midnight included; one at a time none exceeds the quota |
| `GuestQuota.CountIsCommitted` | backend-python/app/db/identity.py:135-162 | A daily count is the number of requests of that day that committed after counting; aborted ones cost nothing |
| `GuestQuota.BoundIsReached` | backend-python/app/services/quota_service.py:84-98 | For every quota and k some run reaches that bound |
| `GuestQuota.StepKeeps` | backend-python/app/db/identity.py:135-162 | Check, record, commit, abort and the change of day keep count plus pending requests within the bound |
| `UploadQuota.QuotaHoldsIffPositive` | backend-python/app/db/identity.py:182-203 | No history of reservations and releases takes a count out of [0, quota] if and only if the quota is at least one |
| `UploadQuota.CountConserved` | backend-python/app/db/identity.py:182-218 | A count equals grants minus releases if and only if every release gives back an earlier grant of its own day; otherwise it is larger |
| `UploadQuota.ReleaseUndoesReserve` | backend-python/app/db/identity.py:182-218 | A release of the same day undoes a granted reservation and touches no other day |
| `UploadQuota.SqlUploadQuotaStore.TryReserve` | backend-python/app/db/identity.py:182-203 | Grants and adds one exactly when the day has no row or a count below the quota, and otherwise leaves the rows alone |
| `UploadQuota.GrantedIffRoom` | backend-python/app/db/identity.py:182-203 | With a quota of at least one a reservation is granted, after any history, exactly when the count is below it |
| `UploadQuota.KnowledgeService.IngestDocument` | backend-python/app/services/knowledge_service.py:74-153 | Which step ends an ingest, a timeout included, and every counter after it: a success costs one slot of its day, a failed indexing none if the day is the same, a refusal nothing; a failure to store or a timeout keeps the slot |
| `UploadQuota.KnowledgeService.UploadDocument` | backend-python/app/db/session.py:18-26 | With the transaction around it, whatever others have committed meanwhile stands: a failed upload adds nothing to it, a success one slot of its day |
| `UploadTransactions.CountIsCommittedUploads` | backend-python/app/db/identity.py:182-203 | However uploads of a user overlap, midnight included, the committed count of a day is the number of its committed uploads, and with a quota of at least one never exceeds it |
| `UploadTransactions.OnlyCommitsCost` | backend-python/app/services/knowledge_service.py:138-153 | Reservations, releases and rollbacks leave every committed count alone |
| `UploadTransactions.OverlapOnlyAcrossMidnight` | backend-python/app/db/identity.py:194-201 | Two uploads of a user can be open at once, and then they have reserved on different days |
| `Retry.RetryAsync` | backend-python/app/core/retry.py:45-73 | At most n attempts; the result of the only attempt that settles the call: the first success, the first non-retryable failure or the n-th; the sleeps between m attempts total between the plain delays and 1.25 times them, and nothing for a negative base |
| `Retry.BoundsInClosedForm` | backend-python/app/core/retry.py:45-49 | After m sleeps the total lies between base*(2^m-1) and 1.25 times that |

## Left out

- AllocateSeq: the row lock is part of `TurnProtocol`, and the error for a session that does not exist is not modelled.
- AppendUser: states the new rows and the rollback for a duplicate key; the session title set beside it is not modelled.
- CompleteChat: usage rows, provider and model columns, and titles are not part of the session it describes; a cancelled turn is `CancelTurn`.
- StreamChat: a failure to store the assistant row itself, and streams without persistence, are not modelled.
- RetryAsync: the test that calls an exception retryable is a flag of the attempt.
- Process: a non-empty input while capturing with a frame size of zero, for which the copy loop does not end, is excluded.
- CopyAll: excludes a frame size of zero for the same reason.
- GeminiParts: leaves thought signatures out.
- ToGeminiContents: covers validated messages and dictionaries, not other objects with a role, and leaves thought signatures out.
- Several sessions at once: rows, locks and summaries of one session never touch another's, so one session is modelled.
- Session deletion during a turn, and database outages, which roll the request back like a cancellation.
- The unified service's own stream handlers: its error path stores no assistant row, and its guest denial stores two, so turns are not pairs there; its provider answer loop (`_stream_provider_answer`) has the same statements as the loop `StreamChat` models.
- Context assembled with memory, memory extraction, and the conversation summary service apart from clearing.
- Activity notifications, the list of tools used and token usage inside the tool loops.
- The Server-Sent Events and JSON text of frames other than the NDJSON progress lines; UTF-8 decoding of the network's bytes.
- The role cache and the rate limiter's reset functions; one role cache step is one await, and the cache is a value of the state machine rather than an object.
- A capture start while another capture runs drops the samples not yet posted, as the worklet does; what was dropped is not stated.
- Voice: sending acknowledgements and heartbeats, and what a turn does with its audio.
- Token counts of guest quotas, and background jobs that fail after an upload has been accepted.
- The Gemini schema cleaner leaves keys inside other combinators (`anyOf` and the like) alone, and so does the model; positions there are not schema positions of `At`.
- The agent runtime, job queue, workflow engine, approvals, plugins and retrieval, and the Node.js backend.
- Small helpers with a single branch, request validation, settings, logging and the web pages.
