# zcode2api gateway: verified model

The gateway fronts a pool of upstream accounts with Anthropic, OpenAI Chat and OpenAI Responses endpoints.
This project models its stateful cores in Dafny and proves what they keep over whole runs.

- **Captcha token pool** (`TokenPoolSpec`, `TokenPoolProofs`, `TokenPoolTheorems`, `TokenPoolStranding`,
  `TokenPoolCustody`, `TokenPoolService`, `TokenPool`): one-time tokens move between buckets, waiter channels
  and callers while solves finish, callers cancel and configurations switch.
- **Browser slot pool** (`SlotPoolSpec`, `SlotPoolProofs`, `SlotPoolTheorems`, `SlotPoolService`, `SlotPool`): slots
  handed over through channels, racing with timeouts, cancellation, worker death, start and stop.
- **Streaming translators** (`AnthropicMessages`, `Drafts`, `TokenUsage`, `Chat*`, `Responses*`): upstream
  events become Chat chunks or Responses events, next to one-shot converters of the same message.
- **Framing, usage and delivery** (`SseFraming`, `Usage*`, `StreamTail`, `TailObserver`, `PrebufferGate`,
  `Passthrough`): event stream framing after section 9.2.6 of the WHATWG HTML standard, usage and verdict, the
  pre-buffer gate, and the ending written after a truncated stream.
- **Retries, tickets and account health** (`EngineSpec`, `RetryEngine`, `Ticket*`, `ReplayGuard`,
  `AccountStreaks`), **request conversion** (`RequestOrder`, `ResponsesInput`) and the **subscription probe
  dispatcher** (`ProbeDispatcher`).

## How it is modelled

Code that changes state in place is a class whose methods are proved against a function of the old state;
the properties are lemmas about runs of these functions. Every section held under a mutex, and every channel
operation, is one step; a run is any sequence of enabled steps, so all interleavings are covered. Time is an
integer that never goes back. Timers may fire at any moment after they were started. JSON is an abstract value
with a partial `parse` that yields its compact form. `SelectAvoiding` offers an account not tried yet or none,
and `UpdateForRequest` applies a change only if the account still accepts the request's result.

Some sources are inputs of the steps: solver results, worker results, upstream replies, which timer fires,
whether a client takes a write. The CPU governor of the token pool is a divisor of 1, 2 or 4. A mint's clock
reading taken before the lock is an input not later than the lock's own.

Results about the code that its comments do not say, or say otherwise:

- `TokenPoolStranding.HandBackStrands`: cancelled calls can leave waiters without a solve. One refill tick may
  only serve some of them (`OneTick` says exactly when); the second tick reaches the rest if no token comes back to
  the queue in between (`TwoTicks`), and otherwise no number of ticks is enough.
- `ProbeDispatcher.HistorySortsExactly`: candidates with different latencies that are not positive are not put into
  an order.
- `SlotPoolTheorems.LateCondemnKeepsWorker`: a timeout noticed just before the worker's result is delivered
  reports a replaced worker although it is kept.
- `SlotPoolTheorems.StopDuringStartStrands`: a Stop that overlaps Start can leave a pool that says it is started,
  refuses every caller, and ignores Start and Stop from then on.
- `ChatTheorems.InputlessToolDiffers`: a tool call without input is streamed with an empty object and
  converted in one piece with null.
- `StreamTail.ClosingTwice`: a stream cut off between its own closing delta and its message_stop gets a second
  closing delta.
- `TicketTheorems.CanceledIsUnreachable`: the ticket status for a cancelled job cannot occur.
- `ReplayGuard.ResetArmsAgain`: a verdict that finds the table full lets used-up content pass again, whichever
  content it is for (`FloodLetsThrough` shows such a run).
- `AccountStreaks.StreaksCountHistory`: the risk streak also starts over with a new login, a manual recovery and an
  answered probe; the other two streaks do not.

`dafny verify dfyconfig.toml` checks the whole project.

## Model

| member | source | states |
|---|---|---|
| `TokenPoolTheorems.OneOwner` | internal/captcha/token_pool.go:359-415 | over every run, each solver result is in at most one place: one bucket slot, one waiter's channel or one caller |
| `TokenPoolTheorems.ReturnsAreFinal` | internal/captcha/token_pool.go:359-415 | what a Take returned, token or error, is never changed or delivered again |
| `TokenPoolTheorems.FastTakeIsLive` | internal/captcha/token_pool.go:611-633 | a Take served from the bucket never gets an expired token |
| `TokenPoolTheorems.OwnKeyOnly` | internal/captcha/token_pool.go:305-345 | a Take only gets a token minted for the key it asked for; all waiters and non-empty buckets carry the current key of an active, open pool |
| `TokenPoolTheorems.DuplicatesNeverBothLive` | internal/captcha/token_pool.go:532-554 | between clears, mints accepted with one dedupe key are at least ttl plus a minute apart and never both live |
| `TokenPoolTheorems.Bounded` | internal/captcha/token_pool.go:453-489 | buckets hold at most max tokens; the in-flight counter of a key counts its running solves and stays within max(max, emptySolve) |
| `TokenPoolTheorems.DeepIdleStartsNothing` | internal/captcha/token_pool.go:683-760 | a refill of a deeply idle pool without waiters starts no solve |
| `TokenPoolTheorems.StepNearer` | internal/captcha/token_pool.go:467-563 | unless a delivered token is handed back, no step leaves waiters without an empty bucket and a running solve, and every current-key completion brings the oldest waiter nearer to its answer |
| `TokenPoolTheorems.WaitingCostsCompletions` | internal/captcha/token_pool.go:467-563 | as long as a waiter stays queued, completions plus what is left stay within its allowance |
| `TokenPoolTheorems.OldestAnsweredInTime` | internal/captcha/token_pool.go:359-415 | the oldest waiter is answered before in-flight plus emptySolve solves for its key have completed |
| `TokenPoolStranding.BusyExactly` | internal/captcha/token_pool.go:576-594 | while waiters face an empty bucket and a running solve, a step ends that exactly if it puts a cancelled call's token back into the bucket beside them |
| `TokenPoolStranding.StrandsExactly` | internal/captcha/token_pool.go:467-563 | a queue loses its last solve exactly when that solve completes while the bucket has live tokens, but fewer than the waiters left |
| `TokenPoolStranding.DryExactly` | internal/captcha/token_pool.go:576-594 | a queue without a solve keeps facing an empty bucket until a token comes back to it, and only that ends it |
| `TokenPoolStranding.OneTick` | internal/captcha/token_pool.go:683-760 | one refill tick with a solver leaves waiters without a solve exactly if they had none and the bucket serves some of them, not all; it never leaves a token beside them |
| `TokenPoolStranding.TwoTicks` | internal/captcha/token_pool.go:683-760 | after two refill ticks, with any run between them that returns no token to a queue without a solve, nobody waits or a solve is under way; without that condition no number of ticks is enough (HandBackStrands) |
| `TokenPoolStranding.HandBackStrands` | internal/captcha/token_pool.go:576-594 | such a queue is reachable, and for every n there is a run of n refill ticks, with a token coming back after each, in which waiters never get a solve |
| `TokenPoolStranding.DeliverServes` | internal/captcha/token_pool.go:491-508 | the bucket serves as many waiters as it has live tokens, oldest first |
| `TokenPoolCustody.AcceptedIsHeld` | internal/captcha/token_pool.go:532-563 | a finished solve is accepted exactly if it brought a token for the current key of an active pool under a free dedupe key; its token is then with the oldest waiter, or in the bucket if nobody waits |
| `TokenPoolCustody.TokenStays` | internal/captcha/token_pool.go:305-880 | no step takes a token out of the pool's and the callers' hands unless it has expired, is the oldest of a full bucket that takes one more, is dropped by a clear, a close or another configuration, or its call gives up and may not return it |
| `TokenPoolCustody.TokenIsKept` | internal/captcha/token_pool.go:305-880 | the same over runs: a token somebody held is still held, or was lost at a step of this kind |
| `TokenPoolService.EveryTakeIsAnswered` | internal/captcha/token_pool.go:359-400 | a Take is refused if the pool does not serve its configuration, gets the oldest live token if there is one, with its dedupe window renewed, and otherwise waits for a solve under way or the solves started for it; it is refused without a solve only behind others whose solves failed too often in a row |
| `TokenPoolService.NobodyIsRefusedEarly` | internal/captcha/token_pool.go:400-415 | whoever waits goes on waiting or gets a token, unless the call itself gives up, the pool closes, its configuration is dropped, there is no solver, or no solve is under way after too many failures in a row |
| `TokenPoolService.BooksAreKept` | internal/captcha/token_pool.go:359-760 | the target rises with each Take that comes away empty and falls after quiet minutes; failures in a row, switches, times and totals say what has happened; solves started are solves under way or come back |
| `TokenPoolService.RefillReachesItsGoal` | internal/captcha/token_pool.go:683-760 | with nobody waiting a refill starts solves until tokens and solves under way reach the goal or all its lanes are used, no more than either allows, and none for a deeply idle pool |
| `TokenPoolService.WarmingWarms` | internal/captcha/token_pool.go:257-272 | warming starts one solve exactly if a served pool has neither a live token nor a solve under way |
| `TokenPoolService.ForgetsExactly` | internal/captcha/token_pool.go:348-357 | a clear leaves no token and no dedupe key; a section that only prunes takes away exactly what has expired |
| `TokenPoolProofs.NextKeeps` | internal/captcha/token_pool.go:230-360 | every step keeps sizes, queue, key separation, ownership and the dedupe register consistent |
| `TokenPool.CaptchaTokenPool.PruneLocked` | internal/captcha/token_pool.go:640-659 | drops expired tokens, empty buckets and register entries that have run out |
| `TokenPool.CaptchaTokenPool.PopLocked` | internal/captcha/token_pool.go:619-633 | discards the expired head of the bucket and takes the oldest live token |
| `TokenPool.CaptchaTokenPool.AppendBucketLocked` | internal/captcha/token_pool.go:611-617 | a full bucket drops its oldest token |
| `TokenPool.CaptchaTokenPool.FailWaitersLocked` | internal/captcha/token_pool.go:596-608 | every waiter is answered with the error and the queue is emptied |
| `TokenPool.CaptchaTokenPool.DeliverBucketToWaitersLocked` | internal/captcha/token_pool.go:491-508 | hands live tokens to the oldest waiters until one side runs out |
| `TokenPool.CaptchaTokenPool.LaunchMintsLocked` | internal/captcha/token_pool.go:453-465 | starts n solves and counts them in flight |
| `TokenPool.CaptchaTokenPool.EnsureMintsLocked` | internal/captcha/token_pool.go:467-489 | serves what the bucket has, then fails everybody or tops up the running solves |
| `TokenPool.CaptchaTokenPool.Take` | internal/captcha/token_pool.go:359-400 | refuses a closed, unconfigured or foreign-key call; otherwise takes a token or queues the caller and starts solves |
| `TokenPool.CaptchaTokenPool.Receive` | internal/captcha/token_pool.go:400-415 | a delivered reply becomes the call's result |
| `TokenPool.CaptchaTokenPool.RemoveWaiter` | internal/captcha/token_pool.go:576-594 | a cancelled call leaves the queue; a token already sent to it goes back if its key is still current |
| `TokenPool.CaptchaTokenPool.MintDone` | internal/captcha/token_pool.go:510-563 | a finished solve is dropped, refused as duplicate or accepted, and then delivered, or counted as a failure |
| `TokenPool.CaptchaTokenPool.SetConfig` | internal/captcha/token_pool.go:305-345 | a new key clears the pool and fails the waiters; an unverified or disabled one deactivates it |
| `TokenPool.CaptchaTokenPool.Clear` | internal/captcha/token_pool.go:348-357 | forgets tokens and register |
| `TokenPool.CaptchaTokenPool.Warm` | internal/captcha/token_pool.go:257-272 | starts one solve if there is neither stock nor a solve under way |
| `TokenPool.CaptchaTokenPool.RefillOnce` | internal/captcha/token_pool.go:683-760 | prunes, serves the waiters or starts what the target calls for, then decays the target |
| `TokenPool.CaptchaTokenPool.Close` | internal/captcha/token_pool.go:843-877 | fails every waiter and empties the pool |
| `SlotPoolTheorems.SendsNeverBlock` | internal/captcha/pool.go:476-481 | a slot that enqueues itself and a caller that gives a slot back always find room in the idle channel |
| `SlotPoolTheorems.SlotsAreConserved` | internal/captcha/pool.go:407-420 | until the generation closes each slot is in exactly one place: being built or about to enqueue, once in idle, held by one caller, or serving one request |
| `SlotPoolTheorems.QuietPoolIsFull` | internal/captcha/pool.go:311-391 | after any cancellations and timeouts, once nobody holds a slot and all wait, the whole capacity is idle |
| `SlotPoolTheorems.OwnAnswer` | internal/captcha/pool.go:352-390 | what Solve returns was returned by the worker of the slot that had taken this very request |
| `SlotPoolTheorems.AwaitedComes` | internal/captcha/pool.go:490-497 | a caller that still waits has its result to read, or a slot about to return or deliver it |
| `SlotPoolTheorems.CondemnedNeverServesAgain` | internal/captcha/pool.go:499-505 | a worker condemned while it still serves the timed-out request never serves another |
| `SlotPoolTheorems.LateFlagIsNeverRead` | internal/captcha/pool.go:372-376 | once no slot serves a request any more, its condemned flag is never consulted |
| `SlotPoolTheorems.LateCondemnKeepsWorker` | internal/captcha/pool.go:362-376 | that window is reachable: the caller is told of a timeout and a replacement, yet the same worker serves the next caller and no restart is counted |
| `SlotPoolTheorems.StartMeansAllReady` | internal/captcha/pool.go:226-250 | unless a stop has begun, Start succeeds only with a live worker in every slot |
| `SlotPoolTheorems.StrandedOnlyByOverlap` | internal/captcha/pool.go:239-244 | a successful Start ends in a pool that is started without a generation exactly if its close had already begun |
| `SlotPoolTheorems.StrandedForever` | internal/captcha/pool.go:206-212 | such a pool refuses every later caller, and Start and Stop both do nothing |
| `SlotPoolTheorems.StopDuringStartStrands` | internal/captcha/pool.go:270-299 | such a run exists with one slot |
| `SlotPoolService.NobodyIsTurnedAway` | internal/captcha/pool.go:311-342 | over every run of a started pool without a close, no caller is told that the pool is not started, however busy the slots are: unless a slot has its request it waits for one, holds one or gives one back |
| `SlotPoolService.WaitingEnds` | internal/captcha/pool.go:324-342 | a waiting caller goes on waiting until it takes the slot idle longest, or until time, its own wish or the close ends it |
| `SlotPoolService.ResultWins` | internal/captcha/pool.go:352-390 | a result that has arrived is returned, also if timer or close come first; only the caller's own cancellation can win |
| `SlotPoolService.ResultArrives` | internal/captcha/pool.go:490-497 | a worker's result reaches the caller that still wants it, and nobody else |
| `SlotPoolService.WhyExactly` | internal/captcha/pool.go:352-390 | a caller that awaits its result leaves with it, for the timer, for its own cancellation or for the close, each exactly when that happens |
| `SlotPoolService.LeavingIsMarked` | internal/captcha/pool.go:411-426 | whoever lets go of a slot or a request without an answer marks the request abandoned |
| `SlotPoolService.CondemnedExactly` | internal/captcha/pool.go:362-376 | only a caller whose timer fired condemns its worker, and no mark is taken back |
| `SlotPoolService.AbandonedExactly` | internal/captcha/pool.go:411-426 | a request is marked abandoned exactly by giving up its hand-over or its wait |
| `SlotPoolService.ReplacedExactly` | internal/captcha/pool.go:499-527 | after a request a worker is replaced exactly if it was condemned, is dead or is due for recycling |
| `SlotPoolService.DeadNeverServesAgain` | internal/captcha/pool.go:499-527 | a worker that died in a request never serves another |
| `SlotPoolService.DyingStarts` | internal/captcha/pool.go:499-527 | from the moment its solve returns dead, that worker is known to nobody else |
| `SlotPoolService.StatsCount` | internal/captcha/pool.go:599-603 | requests, timeouts, discarded results, restarts and failures are counted exactly when they happen |
| `SlotPoolService.StartDecides` | internal/captcha/pool.go:226-255 | Start succeeds exactly once every slot is ready, whatever the time, unless a slot failed or the pool was stopped; otherwise it gives up for these reasons or its deadline, and closes the pool |
| `SlotPoolService.CloseStops` | internal/captcha/pool.go:270-300 | a close touches no slot and no caller, and takes no caller any more |
| `SlotPoolProofs.StepKeeps` | internal/captcha/pool.go:311-557 | every atomic section of slots, callers, Start and Stop keeps the conservation invariant |
| `SlotPool.BrowserPool.MarkReady` | internal/captcha/pool.go:549-557 | counts a ready slot of a live generation, and says whether it is wanted |
| `SlotPool.BrowserPool.FactoryFailed` | internal/captcha/pool.go:533-546 | fails the start, retries later, or leaves a closed generation |
| `SlotPool.BrowserPool.Post` | internal/captcha/pool.go:492-497 | delivers a result or discards an abandoned one |
| `SlotPool.BrowserPool.Judge` | internal/captcha/pool.go:499-527 | keeps the worker or rebuilds it: condemned, dead or due |
| `SlotPool.BrowserPool.Acquire` | internal/captcha/pool.go:324-342 | takes the slot that has been idle longest |
| `SlotPool.BrowserPool.HandOver` | internal/captcha/pool.go:407-410 | the request reaches exactly the held slot |
| `SlotPool.BrowserPool.HandOverFails` | internal/captcha/pool.go:411-419 | the request is abandoned and the slot about to go back |
| `SlotPool.BrowserPool.GiveBack` | internal/captcha/pool.go:411-419 | the slot is idle again |
| `SlotPool.BrowserPool.GiveUpWaiting` | internal/captcha/pool.go:362-390 | a result that is there wins over timer and close |
| `SlotPool.BrowserPool.PollStart` | internal/captcha/pool.go:227-255 | one turn of the start loop |
| `SlotPool.BrowserPool.BeginTeardown` | internal/captcha/pool.go:270-280 | closes the generation once |
| `TokenUsage.MergeRawUsage` | internal/openai/stream.go:359-375 | the loop keeps, key by key, the larger of two numbers and otherwise the later value |
| `TokenUsage.MergeOfLargest` | internal/openai/stream.go:350-375 | merging two groups of numeric reports gives the pointwise maximum of all of them |
| `TokenUsage.LargestIsUnique` | internal/openai/stream.go:350-375 | that maximum does not depend on the order or repetition of reports |
| `TokenUsage.ReportMore` | internal/openai/stream.go:230-234 | accumulating deltas into the output usage keeps input and output together the maximum of everything reported |
| `TokenUsage.EachTokenCountsOnce` | internal/openai/respond.go:119-138 | more output tokens add to completion and total alone; more input, cache read and cache write tokens add to prompt and total, and cache reads alone to the cached tokens; other keys count for nothing |
| `TokenUsage.OthersCountForNothing` | internal/openai/respond.go:119-125 | a value that is no number counts for nothing |
| `ChatTheorems.StreamRefinesOneShot` | internal/openai/stream.go:85-288 | for every legal upstream stream, the chunks add up to the one-shot conversion of its message (text, reasoning, calls, finish, usage) exactly when no tool block stays without an input, in every failure mode |
| `ChatTheorems.InputlessToolDiffers` | internal/openai/stream.go:161-168 | the exception is real: for a tool called without input the stream sends an empty object where the one-shot form says null |
| `ChatTheorems.OneEnding` | internal/openai/stream.go:248-335 | whatever the upstream sends, exactly one ending is written and it is last, or none at all when a failure aborts; success needs a message_stop |
| `ChatTheorems.DoneMeansToolsComplete` | internal/openai/stream.go:291-339 | a stream that ends in [DONE], even cut short, has given arguments to every tool it opened, and one cut short had every tool closed upstream |
| `ChatProofs.StepKeeps` | internal/openai/stream.go:85-124 | each event keeps the chunks so far equal to the message so far |
| `ChatProofs.FlushedTools` | internal/openai/stream.go:279-284 | flushing sends a start's input exactly to the tools without argument deltas |
| `ChatProofs.MessageStopFinishes` | internal/openai/stream.go:248-269 | message_stop leaves the whole message told, usage included |
| `ChatFailures.FailsExactly` | internal/openai/stream.go:85-124 | for every upstream stream: it is translated without a failure exactly if its message ends before anything is wrong; otherwise the failure is that of the first event that is wrong (an error event, no JSON, arguments for a tool never opened), or that the message never ended |
| `ChatFailures.EndsExactly` | internal/openai/stream.go:291-339 | a failed stream is everything its sound events gave, and then nothing in abort mode, a proper ending in graceful mode if the message had started and every tool was stopped, otherwise one error chunk of the mode's kind |
| `ChatFailures.OneShotExactly` | internal/openai/respond.go:47-112 | finish reason, id, text, reasoning and calls of the one-shot conversion, each exactly |
| `ChatFailures.BooksAreTold` | internal/openai/stream.go:127-246 | the usage remembered is the last start's and everything reported since, for every sound stream |
| `ChatEncoder.MessageToOpenAI` | internal/openai/respond.go:47-97 | one pass collects text, reasoning and calls of the content |
| `ChatEncoder.SseEncoder.OnBlockStart` | internal/openai/stream.go:141-188 | what a block start adds |
| `ChatEncoder.SseEncoder.OnBlockDelta` | internal/openai/stream.go:190-228 | what a delta adds, and the error for undeclared tools |
| `ChatEncoder.SseEncoder.OnMessageDelta` | internal/openai/stream.go:230-246 | usage is merged; a stop reason flushes tools and finishes |
| `ChatEncoder.SseEncoder.Dispatch` | internal/openai/stream.go:85-124 | events are dispatched until the stream is finished |
| `ChatEncoder.SseEncoder.Fail` | internal/openai/stream.go:291-325 | the ending of a failed stream by mode |
| `ChatEncoder.SseEncoder.ReencodeEvents` | internal/openai/stream.go:19-60 | a whole response: events until one fails, then the ending |
| `ResponsesLifecycle.Lifecycle` | internal/openai/responses_stream.go:87-392 | for every upstream stream: sequence numbers are 0, 1, 2, ...; every event names an item added before under its id and index; a completed response finishes each item once, in order, with exactly the streamed text and ids apart; one terminal event, last, or none when a failure aborts |
| `ResponsesLifecycle.DispatchSound` | internal/openai/responses_stream.go:98-155 | each event keeps what a strict reader has seen in step with the encoder's items |
| `ResponsesLifecycle.FinishedOne` | internal/openai/responses_stream.go:302-334 | finishing an item reports its streamed text as its value and the item itself |
| `ResponsesLifecycle.FailSound` | internal/openai/responses_stream.go:358-392 | a failure reports what was streamed, all items incomplete and none done, or completes them gracefully |
| `ResponsesLifecycle.EventsArePaired` | internal/openai/responses_stream.go:157-228 | for every upstream stream: a created response, without usage yet, starts at once; a text item's part is added with it; a finished value is followed by its part, if it has one, and its item, with the same text |
| `ResponsesFailures.FailsExactly` | internal/openai/responses_stream.go:98-155 | for every upstream stream: no failure exactly if the message ends before anything is wrong; otherwise that of the first event that is wrong (an error event, no JSON, an unnamed tool, arguments where no call is open), or that the message never ended |
| `ResponsesFailures.EndsExactly` | internal/openai/responses_stream.go:358-401 | a failed stream keeps what its sound events gave and ends with nothing in abort mode, as a finished response in graceful mode exactly if every call was stopped, otherwise as a failed one |
| `ResponsesFailures.BooksAreTold` | internal/openai/responses_stream.go:130-165 | for every sound stream the stop reason is the last one given, and the usage the last start's and everything reported since |
| `ResponsesFailures.OneItemIncomplete` | internal/openai/responses.go:250-345 | the one-shot response is incomplete exactly if the token limit stopped it, and then its last item alone is |
| `ResponsesFailures.EachTokenCountsOnce` | internal/openai/responses.go:383-415 | what each kind of reported tokens adds to input, output, total and cached counts |
| `ResponsesRefinement.StreamSaysTheMessage` | internal/openai/responses_stream.go:178-355 | a complete stream ends in its message's response exactly if every tool block is named; otherwise it fails on the unnamed tool |
| `ResponsesRefinement.DraftGrows` | internal/openai/responses_stream.go:247-300 | however deltas interleave, the blocks are the starts in order, each with its own text |
| `ResponsesRefinement.InterleavingIsInvisible` | internal/openai/responses_stream.go:247-300 | two streams with the same starts and the same text per index end in the same output |
| `ResponsesOneShot.StreamMatchesOneShot` | internal/openai/responses.go:250-345 | same id, model, status, usage, text, reasoning and calls as the one-shot conversion, exactly when no tool block stays without an input |
| `ResponsesOneShot.OneShotContent` | internal/openai/responses.go:287-345 | regrouping into reasoning, message and calls keeps the content's text, thinking and calls |
| `ResponsesEncoder.MessageToResponsesOutput` | internal/openai/responses.go:287-345 | the loop builds reasoning, message and call items |
| `ResponsesEncoder.Reencoder.Emit` | internal/openai/responses_stream.go:87-96 | each event gets the next number |
| `ResponsesEncoder.Reencoder.OnBlockStart` | internal/openai/responses_stream.go:112-128 | opens an item, or refuses an unnamed tool |
| `ResponsesEncoder.Reencoder.OnBlockDelta` | internal/openai/responses_stream.go:247-277 | routes text by index, opening a missing text item, refusing undeclared tools |
| `ResponsesEncoder.Reencoder.FinishBlock` | internal/openai/responses_stream.go:302-334 | value, part and item done, with the start's input for a silent tool |
| `ResponsesEncoder.Reencoder.OnMessageStop` | internal/openai/responses_stream.go:336-352 | finishes all items, then the response |
| `ResponsesEncoder.Reencoder.Fail` | internal/openai/responses_stream.go:358-392 | the ending of a failed stream by mode |
| `ResponsesEncoder.Reencoder.ReencodeEvents` | internal/openai/responses_stream.go:17-57 | a whole response |
| `SseFraming.ChunkIndependence` | internal/sse/decoder.go:20-49 | the events of a byte stream do not depend on how it is cut, end of input included |
| `SseFraming.DrainAppend` | internal/gateway/usage.go:47-61 | taking lines out of a buffer before or after more bytes arrive gives the same frames |
| `SseFraming.RoundTrip` | internal/gateway/truncate.go:264-270 | printed frames whose name and data stay on one line read back as themselves |
| `SseFraming.PrintedAfter` | internal/gateway/truncate.go:264-270 | so they do behind any bytes that end on an event boundary |
| `SseFraming.ManyLinesRead` | internal/sse/decoder.go:20-39 | an event's data lines are joined by newlines, with either line ending |
| `SseFraming.UnendedEventIsRead` | internal/sse/decoder.go:42-49 | an event that the end of the stream cuts short before its empty line is read all the same |
| `SseFraming.UnendedLineIsRead` | internal/gateway/usage.go:163-172 | and so it is without the end of its last line |
| `UsageTheorems.CollectorIsCorrect` | internal/gateway/usage.go:47-127 | each counter is the largest value any event reported, floored at 0; usage is final exactly if a closing delta reported output; the verdict is success exactly if an event was message_stop and none an error or unparsable |
| `UsageTheorems.CutIndependence` | internal/gateway/usage.go:47-61 | two ways of cutting the same bytes give the same counters, finality and verdict, for streams and JSON bodies |
| `UsageTheorems.JsonBodyIsCorrect` | internal/gateway/usage.go:163-187 | a JSON body, however cut, is a finished message exactly if its object says so; its usage is final, with the object's counters, exactly if it has one |
| `UsageTheorems.TrimmedExactly` | internal/gateway/usage.go:70-75 | trimming takes all spaces at both ends and nothing else |
| `UsageTheorems.LargerOfEach` | internal/gateway/usage.go:101-113 | merged counters are the larger of each pair |
| `UsageTheorems.FinishIsIdempotent` | internal/gateway/usage.go:163-187 | finishing again changes nothing |
| `UsageCollector.LineDecoder.Feed` | internal/sse/decoder.go:20-39 | one line in, at most one event out |
| `UsageCollector.LineDecoder.FinishEvent` | internal/sse/decoder.go:42-49 | the pending event, and an empty decoder |
| `UsageCollector.Usage.ObserveEvent` | internal/gateway/streamstate.go:65-92 | end state: message_stop seen, first error kept |
| `UsageCollector.Usage.ObserveUsage` | internal/gateway/usage.go:70-127 | counters only rise; finality needs a stop reason and reported output |
| `UsageCollector.Usage.FeedBytes` | internal/gateway/usage.go:47-61 | every complete line in the buffer is observed |
| `UsageCollector.Usage.FinishBody` | internal/gateway/usage.go:163-187 | the rest of a stream, or a JSON body as a whole |
| `UsageCollector.Usage.Complete` | internal/gateway/usage.go:152-160 | final usage and a proper end |
| `StreamTail.GracefulIsLegal` | internal/gateway/truncate.go:168-208 | whenever the ending is agreed to, prefix and ending together are a complete message with every block stopped exactly once; the end is announced once more than the upstream had |
| `StreamTail.ClosingTwice` | internal/gateway/truncate.go:139-208 | a message cut off right behind its closing delta is ended all the same, and announces its end twice |
| `StreamTail.GracefulIsHonest` | internal/gateway/truncate.go:168-208 | one message_stop, last; the notice uses an index never used; only the open block is stopped, and never a tool |
| `StreamTail.GracefulRefusesExactly` | internal/gateway/truncate.go:168-171 | refused exactly for a message not begun, already over, or in the middle of a tool call |
| `StreamTail.EndingIsRead` | internal/gateway/truncate.go:242-270 | printed behind bytes on an event boundary, the ending is read as exactly these events |
| `StreamTail.TailMarks` | internal/gateway/truncate.go:95-160 | started, stopped and dirty mark exactly the streams with such an event; content exactly those with a block start or a text, thinking or argument delta that has text |
| `StreamTail.TailUsage` | internal/gateway/truncate.go:95-160 | the usage the ending repeats is the last one reported |
| `StreamTail.TailIndex` | internal/gateway/truncate.go:95-160 | the notice's index is above all block indices so far, and no higher than needed |
| `TailObserver.SseTail.ObserveEvent` | internal/gateway/truncate.go:95-157 | what each event tells the observer |
| `TailObserver.SseTail.Feed` | internal/gateway/truncate.go:72-84 | the observer has seen the events of the bytes fed, however cut |
| `TailObserver.SseTail.Finish` | internal/gateway/truncate.go:86-92 | and those of an unfinished tail |
| `TailObserver.SseTail.Graceful` | internal/gateway/truncate.go:168-208 | the ending, or none |
| `TailObserver.WatchObserves` | internal/gateway/truncate.go:72-157 | watching frames is observing the events they read as |
| `PrebufferGate.GateIsFaithful` | internal/gateway/truncate.go:299-441 | for every interleaving the header is written once and first; open and unbroken, bytes sent then bytes held are the bytes supplied; what is sent is always a prefix of them |
| `PrebufferGate.AbandonedIsSilent` | internal/gateway/truncate.go:394-420 | after a claim or a close nothing is written again, whatever callback still runs |
| `PrebufferGate.ClaimMeansUnseen` | internal/gateway/truncate.go:394-403 | a claim succeeds exactly if the client has seen nothing, and then it never will |
| `PrebufferGate.CloseLetsGo` | internal/gateway/truncate.go:413-420 | a closed gate holds nothing back any more, whatever still runs, and nothing more is written |
| `PrebufferGate.ResponseGate.PushChunk` | internal/gateway/truncate.go:324-338 | holds, commits or writes through |
| `PrebufferGate.ResponseGate.WriteChunk` | internal/gateway/truncate.go:348-360 | commits first, then writes |
| `PrebufferGate.ResponseGate.DoCommitLocked` | internal/gateway/truncate.go:421-441 | header and held bytes, once |
| `PrebufferGate.ResponseGate.ClaimUndelivered` | internal/gateway/truncate.go:394-403 | stops the timer and abandons an uncommitted response |
| `Passthrough.Deliver` | internal/gateway/handler.go:109-172 | for every timer schedule and connection: the client sees the header first and then a prefix of the body and its ending; it sees nothing, and the outcome is unseen, exactly for an event stream that was cut before an event with something to see came, the buffer was full or the timer fired; otherwise the outcome follows from how the body ends |
| `Passthrough.ObserverSeesContent` | internal/gateway/truncate.go:95-160 | the observer has content exactly if some complete event of the bytes gives the client something to see |
| `Passthrough.WriteTerminal` | internal/gateway/truncate.go:242-261 | abort writes nothing, graceful writes the ending if agreed to, otherwise the error frame |
| `TicketTheorems.OneProducer` | internal/asyncpool/pool.go:410-680 | however often the background job is started, at most one call ever works on the ticket, no request goes upstream after a chunk was queued, and what is queued is ready, chunks, at most one end |
| `TicketHistory.QueueIsTrue` | internal/asyncpool/pool.go:380-680 | over every run: the queued chunks are the data that arrived, in order, but perhaps for the last; done is queued only for a stream that ended, with all its data and no break behind a chunk; an error only for the request rejected this way or a stream that broke behind its data |
| `TicketHistory.CutIsReported` | internal/asyncpool/pool.go:571-576 | after a stream has broken behind a queued chunk, the only event still queued is the error that says so |
| `TicketHistory.NoSilentEnd` | internal/asyncpool/pool.go:335-400 | a ticket in the table that was ever claimed is being worked on, or its end is queued and its status says which |
| `TicketHistory.NeverStuck` | internal/asyncpool/pool.go:380-400 | the working producer can always go on, unless the client does not read and nobody cancels |
| `TicketHistory.RemovedIsLeftAlone` | internal/asyncpool/pool.go:380-400 | once a ticket is removed, at most the one event that was about to be queued still is |
| `TicketHistory.GoneIsNeverWorked` | internal/asyncpool/pool.go:320-333 | a removed ticket that nobody works on is never worked on again |
| `TicketHistory.EndSettles` | internal/asyncpool/pool.go:335-346 | a call that ends leaves no ticket that looks as if it were being worked on, and tells a cancelled context from a failure |
| `TicketHistory.OthersExactly` | internal/asyncpool/pool.go:298-362 | what removal, cancellation, closing, another start and the client's leaving do to the table, the context, the calls and the client |
| `TicketHistory.EveryAnswerCanArrive` | internal/asyncpool/pool.go:195-257 | whatever data arrives, there is a run in which a client that reads is shown all of it and then done |
| `TicketTheorems.StatusOfRuns` | internal/asyncpool/pool.go:320-347 | the status moves only forward and a final one stays; completed means a done was queued last |
| `TicketTheorems.StatusForward` | internal/asyncpool/pool.go:320-400 | the same from any state of a run |
| `TicketTheorems.CanceledIsUnreachable` | internal/asyncpool/pool.go:335-361 | the status for a cancelled job is never reached: a context is cancelled only after its ticket left the table |
| `TicketTheorems.ClientSees` | internal/asyncpool/pool.go:195-257 | a client sees the opening and then the queued events in order; connected to the end it sees exactly one end, last, or just that the ticket is not found |
| `TicketTheorems.ProduceKeeps` | internal/asyncpool/pool.go:380-680 | every move of a producer keeps the protocol |
| `TicketPool.Pool.NewTicket` | internal/asyncpool/pool.go:270-295 | a closing pool takes no ticket |
| `TicketPool.Pool.ClaimTicket` | internal/asyncpool/pool.go:320-333 | claims exactly a present, pending ticket and touches no other |
| `TicketPool.Pool.FinishTicketWork` | internal/asyncpool/pool.go:335-346 | settles a ticket still processing and still in the table |
| `TicketPool.Pool.MarkFinal` | internal/asyncpool/pool.go:389-396 | the status of a queued end |
| `TicketPool.Pool.ReleaseTicket` | internal/asyncpool/pool.go:351-359 | removed first, cancelled after |
| `TicketPool.Pool.Close` | internal/asyncpool/pool.go:298-309 | every ticket cancelled and removed |
| `RetryEngine.HandleUpstreamError` | internal/gateway/engine.go:704-960 | the branches in the engine's order, budgets and clean lines included |
| `RetryEngine.RiskScope.Verdict` | internal/gateway/riskscope.go:57-72 | counts different lines that were clean when hit |
| `RetryEngine.TryAccount` | internal/gateway/engine.go:383-458 | the loop returns before its budget runs out, after at most MaxCaptchaRetries plus busy, rate-limit and overload retries of requests; the client is shown something exactly if the account's last reply ends the request as delivered |
| `RetryEngine.RunMessages` | internal/gateway/engine.go:275-331 | the request goes on after every switch, with exactly the ids tried and the lines to avoid so far handed to the selection, and each account's turns go on exactly until the first answer that asks for no retry; it gives up only after five accounts or when none is offered, and for its deadline only when a check said so; at most UpstreamTimeoutRetries timeout switches; a stop when, and only when, the threshold of clean lines is reached; the record of requests is exactly that of the turns that got that far, and whatever is on the client's connection is what the delivery of the last account's last reply shows |
| `RetryEngine.CleanLinesExactly` | internal/gateway/riskscope.go:57-72 | a line counts against the content exactly if a trial ended with risk control over it and it was clean |
| `EngineSpec.SwitchesExactly` | internal/gateway/engine.go:704-960 | which refusals lead on to another account, as an equivalence |
| `EngineSpec.RetriesExactly` | internal/gateway/engine.go:704-960 | which refusals are tried again on the same account, as an equivalence |
| `EngineSpec.PassesExactly` | internal/gateway/engine.go:704-960 | which refusals are handed to the client, as an equivalence |
| `EngineSpec.AvoidsExactly` | internal/gateway/engine.go:704-960 | a switch avoids a line exactly if that line is to blame for the reply |
| `EngineSpec.JsonExactly` | internal/gateway/engine.go:966-1035 | what each code of a JSON body leads to, as equivalences |
| `EngineSpec.CaptchaExactly` | internal/gateway/engine.go:383-458 | the third captcha an account asks for ends the request, an earlier one makes it try again, and nothing else counts as one |
| `EngineSpec.TurnsDecide` | internal/gateway/engine.go:383-458 | before its request a turn ends the request exactly for its deadline or an unprepared body, and moves on, avoiding nothing, exactly for a bad credential |
| `RetryEngine.SendOne` | internal/gateway/engine.go:1037-1059 | a reply's delivery switches accounts exactly if it showed the client nothing |
| `RequestOrder.AppendAnthropicMessage` | internal/openai/convert.go:119-133 | goes on in the last message of the same role |
| `RequestOrder.ContentBlocks` | internal/openai/convert.go:137-260 | content becomes blocks or is refused as a whole |
| `RequestOrder.ConvertMessage` | internal/openai/convert.go:169-217 | one user, assistant or tool item |
| `RequestOrder.ConvertRequest` | internal/openai/convert.go:73-113 | accepted exactly if every item is; messages are the items' own, in order, merged; instructions are sent exactly when there are some or preserve mode saw some |
| `RequestOrder.ChatKeepsOrder` | internal/openai/convert.go:73-133 | the messages say the items' blocks in order under their roles, neighbours never share a role, and preserve mode hoists exactly the instructions before the first conversation item |
| `RequestOrder.ChatLosesNoInstruction` | internal/openai/convert.go:76-116 | instructions at the top and system messages together are all the instructions, each in order |
| `RequestOrder.ConversationIsKept` | internal/openai/convert.go:73-133 | every item of the conversation is said once, in order, whatever is done with the instructions |
| `RequestOrder.SaidAs` | internal/openai/convert.go:169-217 | role and content of each converted item: a tool's answer is a user's result for its call, an assistant's calls follow its text |
| `RequestOrder.RefusedExactly` | internal/openai/convert.go:137-260 | a list is refused exactly for content without a place upstream, an image among instructions, an unknown role or an unreadable call |
| `RequestOrder.ContentIsKept` | internal/openai/convert.go:222-260 | content in parts keeps all its text and all readable images, each in order, and sends no empty text |
| `RequestOrder.TextIsKept` | internal/openai/convert.go:222-260 | all text of a content is said as it is |
| `ResponsesInput.SplitInstructions` | internal/openai/responses.go:83-124 | instructions and the remaining items, in order |
| `ResponsesInput.ConvertItems` | internal/openai/responses.go:128-199 | outputs gathered or not, the result is the items' messages in order |
| `ResponsesInput.ConvertRequest` | internal/openai/responses.go:47-80 | refused exactly if the input or some item is; the instructions field first at the top, then the hoisted ones; the field is sent when there is something in it, or in preserve mode when instructions were given |
| `ResponsesInput.ConvertInput` | internal/openai/responses.go:63-80 | a list of items: refused exactly if some item is, instructions apart, the rest in order |
| `ResponsesInput.InputKeepsOrder` | internal/openai/responses.go:83-199 | order, roles and hoisting as for Chat requests |
| `ResponsesInput.SplitLosesNothing` | internal/openai/responses.go:83-124 | hoisted and remaining instructions are all of them, each in order |
| `ResponsesInput.ConversationStays` | internal/openai/responses.go:83-124 | everything but the instructions stays, in order, whatever is done with those |
| `ResponsesInput.SpeaksAs` | internal/openai/responses.go:128-199 | who speaks in each item |
| `ResponsesInput.PlainIsSaid` | internal/openai/responses.go:128-140 | a plain text is said once, by the user |
| `ResponsesInput.RefusedInputExactly` | internal/openai/responses.go:128-240 | an item list is refused exactly for content without a place upstream, an image among instructions or an unknown role |
| `ReplayGuard.PassesInChain` | internal/gateway/replayguard.go:88-138 | inside one chain of verdicts exactly the allowances at its start are let through, however many checks and verdicts follow |
| `ReplayGuard.OneRetryPerChain` | internal/gateway/replayguard.go:115-138 | after a first verdict one check passes, none if that is switched off |
| `ReplayGuard.ResetArmsAgain` | internal/gateway/replayguard.go:88-138 | used-up content in its window passes again after a call exactly if that call is a verdict that finds the table full (and, if it is for this very content, the retry is switched on) |
| `ReplayGuard.FloodLetsThrough` | internal/gateway/replayguard.go:115-138 | from an empty table 1024 verdicts fill it, and the next one, for other content, lets used-up content pass |
| `ReplayGuard.LookingNeverLengthens` | internal/gateway/replayguard.go:65-108 | checks change no window and give no allowance back |
| `ReplayGuard.DeletionIsInvisible` | internal/gateway/replayguard.go:65-138 | dropping expired entries early or late changes no answer of any later call, size resets included |
| `ReplayGuard.GuardedSinceLastVerdict` | internal/gateway/replayguard.go:65-138 | as long as the table has room, content is guarded exactly within the configured time after its last verdict, whatever other calls there were |
| `ReplayGuard.BlocksExactly` | internal/gateway/replayguard.go:88-108 | a check blocks exactly inside the window of content without a retry left and says how long it lasts; a passing check inside it uses up one retry and touches nobody else |
| `ReplayGuard.Guard.Remaining` | internal/gateway/replayguard.go:65-80 | the time left, and the expired entry dropped |
| `ReplayGuard.Guard.TakeOne` | internal/gateway/replayguard.go:88-108 | blocks, or uses the allowance |
| `ReplayGuard.Guard.Note` | internal/gateway/replayguard.go:115-138 | drops what expired, makes room, registers the verdict |
| `ProbeDispatcher.Parse` | internal/proxysub/probe.go:56-124 | every row is refused, repeated or listed once, as its first row describes it, and best history first if no two different latencies of the list are both not positive |
| `ProbeDispatcher.HistorySorts` | internal/proxysub/probe.go:111-122 | among such candidates the comparison of histories is an order |
| `ProbeDispatcher.HistorySortsExactly` | internal/proxysub/probe.go:111-122 | among three candidates with two latencies it is one exactly if the latencies are equal or one is positive |
| `ProbeDispatcher.Filter` | internal/proxysub/manager.go:316-326 | known and blocked endpoints are counted out, each in its own counter, one that is both as known |
| `ProbeDispatcher.Account` | internal/proxysub/manager.go:296-332 | received is rejected plus existing plus blocked plus candidates before the cap; the cap keeps those probed least recently, by history among equals |
| `ProbeDispatcher.SortOrders` | internal/proxysub/manager.go:327-330 | the stable sort keeps the elements and, among equals, their earlier order |
| `ProbeDispatcher.NoDeadlock` | internal/proxysub/manager.go:358-384 | as long as the loop runs the dispatcher or a worker can go on, if only by noticing the cancellation, and no worker waits for a place in the channel |
| `ProbeDispatcher.MeasureFalls` | internal/proxysub/manager.go:358-384 | every step of dispatcher, worker or cancellation lowers one measure |
| `ProbeDispatcher.FinishedLoop` | internal/proxysub/manager.go:358-388 | every sent candidate's result was consumed exactly once; accepted is at most need - 1 plus the crew |
| `ProbeDispatcher.CrewIsUsed` | internal/proxysub/manager.go:358-384 | the dispatcher offers nothing only if nothing is left, enough are accepted, it was told to stop, or the whole crew is at work |
| `ProbeDispatcher.Dispatch` | internal/proxysub/manager.go:356-388 | the loop ends under every schedule, with these counts, and accepts exactly the good ones among the results it took, also if the cancellation falls between looking and sending |
| `AccountStreaks.StreaksCountHistory` | internal/gateway/classify.go:63-99 | over any run of results, probes, marks, logins and recoveries, each streak is the number of its own kind's accepted hits since the last clearing success or, for risk, the last new login, recovery or answered probe |
| `AccountStreaks.HistoryDecides` | internal/model/riskcontrol.go:33-51 | in such a run the n-th accepted hit since then condemns the account exactly if it is a risk hit with n past the ladder, and otherwise cools it for the n-th step of its kind |
| `AccountStreaks.IdleSuccessesAreInvisible` | internal/gateway/engine.go:1270-1298 | dropping every success that is stale, too early or on an invalid account from a run changes nothing but the number of uses |
| `AccountStreaks.RateLadder` | internal/gateway/classify.go:59-74 | the 429 cooldown never shrinks with the streak and never exceeds the cap |
| `AccountStreaks.LongerEachTime` | internal/gateway/classify.go:84-100 | of two accepted rate limits with no clearing success between them, whatever else lies there, the later one cools no shorter, and no longer than the cap |
| `AccountStreaks.FailureCounts` | internal/gateway/classify.go:63-100 | a failure counts one more hit of its own kind alone and takes the account out of use exactly if it is current |
| `AccountStreaks.RevivesExactly` | internal/gateway/engine.go:1270-1298 | what makes an account active again, as an equivalence |
| `AccountStreaks.DeadlineExactly` | internal/store/store.go:1671-1740 | what moves the deadline besides failures: a login, a recovery, a mark or an administrator, each exactly so |
| `AccountStreaks.CondemnedStays` | internal/model/riskcontrol.go:33-51 | only a recovery, a new login, a further hit or whoever sets a status moves an account that risk control condemned |
| `AccountStreaks.Account.AcceptsRequestResult` | internal/model/account.go:272-281 | same login, enabled, not disabled, not archived |
| `AccountStreaks.Account.MarkRateLimited` | internal/gateway/classify.go:84-100 | streak, cooldown and deadline of an accepted 429 |
| `AccountStreaks.Account.MarkUpstreamUnavailable` | internal/gateway/classify.go:320-336 | streak, cooldown and deadline of an accepted 503 |
| `AccountStreaks.Account.ApplyRiskControl` | internal/model/riskcontrol.go:33-51 | streak, cooldown or invalidity of an accepted risk hit |
| `AccountStreaks.Account.MarkSuccess` | internal/gateway/engine.go:1270-1298 | counts the use, and clears only if the success proves something |
| `AccountStreaks.Account.RenewLogin` | internal/store/store.go:1671-1681 | a new login or secret activates the account and clears the risk streak only |
| `AccountStreaks.Account.Recover` | internal/store/store.go:1718-1740 | manual recovery of an account condemned for risk, into a cooldown inside the silent window |
| `AccountStreaks.Account.ProbeSucceeded` | internal/store/model_probe_dispatch.go:466-472 | an answered probe clears the risk streak and ends a cooldown |

## Left out

- Servers, HTTP clients, TLS, proxies, the database, the browser itself, telemetry, administration and the
  command line: input and output around the modelled cores.
- JSON syntax, error texts, hashing, jitter and the classifiers that match bodies (captcha, risk control,
  quota and business codes): they are abstract values, predicates or injective keys.
- Wait percentiles, log flags and diagnostics: they influence no decision.
- Token pool options are taken as already normalised; joining the parts of a configuration key is abstract.
- The slot pool is modelled for one generation; a later Start makes new channels and shares nothing with it but
  counters. Settling a close and dropping the pool's reference to the generation are one step.
- ChatTheorems.StreamRefinesOneShot: asks that text blocks come one after another, as thinking blocks do, since
  interleaved texts are joined in order of arrival; tool arguments may interleave freely. Argument text that is
  not JSON has no message to be compared with.
- ResponsesOneShot.StreamMatchesOneShot: compares joined text, joined reasoning and calls, because the stream has
  one item per block and the one-shot form one per kind; item ids and which item is marked incomplete differ.
- ResponsesLifecycle.Lifecycle: takes every write as successful; encoders whose client is gone stop at the error.
- Item ids of the Responses stream are structured values instead of their formatted text.
- SseFraming.RoundTrip: frames are printed with one data line, as the gateway does; events of several lines are
  read by `SseFraming.ManyLinesRead`.
- StreamTail.EndingIsRead: asks for a prefix that ends on an event boundary; a half-written frame before the
  ending is not modelled.
- Usage values are read as integers by an abstract parse; conversion of JSON numbers and strings to int is not
  modelled.
- Passthrough.Deliver: the timer's callback runs between two steps of the reader, or not at all, at each point;
  the terminal error frame's text is a parameter.
- The ticket's retry counters and back-off (at most AsyncMaxRetries switches) are not counted; a producer may
  retry any number of times before its first chunk. Keepalive comments of the client's stream are not shown.
- TokenPoolStranding.TwoTicks: asks that no token comes back to a queue without a solve between the ticks, since the
  result is false otherwise; without a solver a tick does nothing.
- RetryEngine.RunMessages: the recovery probe for exhausted models is one of the choices of account; account
  marks, quota refreshes and logs of each branch are left to `AccountStreaks` or left out.
- ProbeDispatcher.Parse: promises no order, only the elements, for a list with two different latencies that are not
  positive, where the comparison is no order.
- The length of the silent window after risk control, and account selectability; store selection and persistence are not part of this model.
- Image URLs, tool schemas and reasoning parameters of request conversion: an image is a block or unreadable.
- internal/captcha/browser_solver.go: it adds blocking Start and Stop calls around the two pools.
