# Neurouter: limiters, elections and streams

Neurouter routes LLM requests to upstream providers. This project is a Dafny model of its two cores, and proofs of what
they keep over whole runs.

**Limits and election.** A model and its upstream each have limiters: concurrent requests (a permit counter), requests
and tokens per minute (a token bucket whose level may go negative and to which unused tokens are refunded), requests and
tokens per day (a quota that resets at midnight). A request probes all candidate models, ranks them, and takes the first
whose limiters it can all reserve, waiting if it must; in the end every reservation is either completed or cancelled.
Limiters are shared between models and requests.

**Streams.** Upstream clients decode OpenAI Chat, OpenAI Responses, Gemini and Anthropic streams into one stream of chat
events. A reducer folds that stream into a response; stream servers re-encode it for the client, as OpenAI Chat chunks,
Responses events or Anthropic events. A complete response is converted without streaming. So there are two ways to the
same answer, and encoders and decoders that should undo each other.

## How it is built

Whatever the program updates in place is a class here, whose `Value()` is its state as a datatype value. Each method is
proved to do to that value what a function says (`Step`, `Charged`, `Handle`, …); the theorems are about those functions
and the runs made of them. Where two functions that should undo each other, or do the same, are compared, a further theorem
says what each gives in terms of its input alone (`DecodedContents`, `DecodedHeader`, `ChunksTell`, `StreamTells`, …), with
the texts, phases, reasons and statuses written out, so that neither is pinned by the other only. Real-time behaviour is explicit: the clock is a non-decreasing parameter that a call reads
once, durations and bucket levels are `real`.

A pool keeps on record every call made on it. `Valid()` says that the state is what these calls, each with the result
it returned, make of fresh limiters; so a contract that says which calls a request has made and what it was told
(`Moves`) cannot be met by made-up probes or reservations. Others act between any two calls of a request;
if the parameter `alone` of a method is set they do not, up to the first wait, and then more is promised.

| files | subject |
|---|---|
| `TokenBucket`, `DailyQuota`, `ConcurrencyLimiter` | the limiters as objects; their laws over runs |
| `Limiters`, `LimiterHistory`, `LimiterPool` | all limiters behind one interface; the calls made on them and what these make of limiters and reservations; a shared pool with its history and books, and other requests acting on it at any time |
| `DailyAccounts`, `Refunds`, `Capacity` | the pool's history as runs of its daily quotas; what cancelling returns; what decides a refusal |
| `ReservationSets`, `Election`, `ChatUseCase` | reserving all or nothing, waiting, settling; probing, ranking, electing; the two use cases from election to settlement |
| `ChatTypes`, `Reducer`, `SequentialStreams`, `StreamShape` | chat events, their reduction, and what streams look like |
| `ResponsesTypes`, `ResponsesServer`, `ResponsesStreamServer`, `ResponsesProtocol`, `ResponsesDeltas`, `ResponsesCompletion`, `ResponsesHeader` | the Responses stream server: its function, its objects, the protocol its client sees, what its deltas carry, and how and under which name a response ends |
| `ResponsesConvert`, `ItemGrouping`, `GroupingMeaning`, `GroupingAgreement`, `GroupingTraps`, `StreamEqualsConvert` | the converter for complete responses; what the items say and are called; exactly when streaming gives the same, and what that is by the contents alone |
| `ResponsesUpstream`, `ResponsesUpstreamShape`, `ResponsesUpstreamContents`, `ResponsesRegroup`, `ResponsesReplay` | decoding a Responses upstream, in what shape and into what; flattening and regrouping items; replaying a response as input |
| `ChatWire`, `ChatStreamServer`, `ChatUpstream`, `ChatUpstreamShape`, `ChatMeaning`, `ChatContents`, `ChatNormalForm`, `ChatRoundTrip` | OpenAI Chat: what the written chunks say, what read chunks are decoded into, and the one after the other |
| `GeminiUpstream`, `GeminiInvariance`, `GeminiMeaning` | decoding Gemini, complete or in chunks: that both agree, and what both say |
| `AnthropicStream`, `AnthropicContents`, `AnthropicDeltas`, `AnthropicPassThrough` | Anthropic's stream: what it is decoded into, what is written, and the one after the other |

## Where the code does not do what one would expect

The model follows the code. Where a law does not hold of it without conditions, a lemma gives the exact condition.

- The stream server and the converter group contents into items by different rules. The responses are equal exactly when
  every content joins an item in both or in neither, by rules that compare ids given and made up
  (`StreamEqualsConversion`, for all sequential streams).
- Unless an id must be made up and another of its kind is given one of that form, this is a matter of the contents
  alone: the responses are equal exactly when no content is a *trap* (`OneItemMorePerTrap`). Adjacent texts of one phase
  without ids, and a summary after the encrypted form of its item, are traps (`IdlessTextsAreTraps`,
  `SummaryAfterSealIsTrap`).
- An id that happens to be the one the router makes up for an item without id makes contents join items they are no part
  of: a stream gives one message where the conversion gives two (`MadeUpIdsCollideOnARun`).
- A reservation set does not wait when all its delays are zero. A daily reservation that was refused may have a zero
  delay by then, because somebody cancelled in between or the reset is due at that instant: the request goes ahead and
  is charged nothing. `ReservationSet.Wait` says that this happens to daily quotas only, `UnacquiredWithoutDelay` when,
  `ElectFromCandidates` exactly when if nobody else acts, and `UnchargedAfterWait` runs into it. The documentation of
  `wait` says that it blocks until all reservations are ready.
- Cancelling a daily reservation after midnight is taken from the new day's count (`CancelAfterMidnightUndercounts`;
  `AccurateStep` says exactly which settlements keep the count).
- Passing an Anthropic stream through drops its pings, its unknown events, and its message deltas without a stop reason,
  with the token counts these carry (`PassesThrough`); the end of the stream is written by the handler (`EndsOnce`). The
  stop of a redacted block is written with its start, so the stream keeps its order exactly if only such silent events
  come in between.
- A Gemini candidate without content is skipped with its finish reason and usage: the message is stopped exactly if some
  answer with content has a finish reason (`StoppedIfFinished`).
- Every chunk of a Chat stream that reports usage ends the message (`EveryReportEnds`); the decoded events are well
  formed exactly when nothing is said after a report (`ChatUpstreamShape.DecodedWellFormed`).
- The status of a streamed Gemini response sees only the calls of the last chunk; it equals that of the complete
  response exactly if an earlier call does not matter (`StreamedResponse`).
- Tool input sent to an open text block, or text sent to an open call, is written out by the Responses stream server as
  it comes. Its deltas are of the kind of their item exactly if every delta suits the open block it is for
  (`DeltasTyped`); likewise in an Anthropic stream (`WrittenSuits`).
- The status of a decoded Chat stream is what the finish reasons had meant when usage was reported last: a finish reason
  after the last report is lost (`ChatContents.DecodedHeader`).

## Model

| member | source | states |
|---|---|---|
| TokenBuckets.TokenBucket.constructor | internal/data/limiter/local/token_bucket.go:35-42 | a new bucket is full |
| TokenBuckets.TokenBucket.Fill | internal/data/limiter/local/token_bucket.go:45-53 | the level grows with the time since the last update and is capped at the burst |
| TokenBuckets.TokenBucket.Probe | internal/data/limiter/local/token_bucket.go:56-79 | the delay until the cost is covered, infinite if it exceeds the burst; the bucket is as before |
| TokenBuckets.TokenBucket.Reserve | internal/data/limiter/local/token_bucket.go:82-100 | fills, then charges the cost, below zero if need be; the ready time is when the refill has covered the deficit |
| TokenBuckets.TokenBucket.Adjust | internal/data/limiter/local/token_bucket.go:103-113 | fills, then gives back or takes the difference, capped at the burst |
| TokenBuckets.BucketReservation.CompleteWithActual | internal/data/limiter/local/token_bucket.go:236-249 | the first settlement refunds or charges estimate minus actual use; any later one leaves the bucket as it is |
| TokenBuckets.BucketReservation.Cancel | internal/data/limiter/local/token_bucket.go:162-169 | cancelling an unsettled reservation refunds it in full, once |
| TokenBuckets.BucketReservation.Complete | internal/data/limiter/local/token_bucket.go:171-174 | completing a request settles it and refunds nothing |
| TokenBuckets.RateBound | internal/data/limiter/local/token_bucket.go:82-100 | in every run of requests, whatever is refused, the costs that become ready in any window [s, e] sum to at most burst + rate·(e − s) |
| TokenBuckets.ReadyInOrder | internal/data/limiter/local/token_bucket.go:82-100 | of any two grants of a run, with refusals in between, the earlier is ready no later |
| TokenBuckets.StepBalanced | internal/data/limiter/local/token_bucket.go:45-113 | every reserve, settlement and passage of time keeps level + net charges + spilled refill = burst + rate·elapsed, level at most burst |
| TokenBuckets.Conservation | internal/data/limiter/local/token_bucket.go:45-113 | the same after every run in time order with refunds, overdrafts and repeated settlements; what is spilled never decreases |
| TokenBuckets.SettledOnce | internal/data/limiter/local/token_bucket.go:236-249 | a settled reservation keeps the charge it was settled with through every further run |
| TokenBuckets.TwiceTheLimit | internal/data/limiter/local/token_bucket.go:120-130 | for a limiter of so many units a minute, the costs that become ready in any 60 seconds of any run sum to at most twice the limit |
| TokenBuckets.DelayIsWait | internal/data/limiter/local/token_bucket.go:56-79 | the probed delay is exactly the wait: untouched, the bucket does not cover the cost at any time before, and does from then on |
| TokenBuckets.GapThroughTraffic | internal/data/limiter/local/token_bucket.go:45-113 | two runs that differ by one reservation of cost c stay within [0, c] of each other through any traffic of others |
| TokenBuckets.CancelNeverLosesQuota | internal/data/limiter/local/token_bucket.go:162-169 | with the reservation the level is behind by something in [0, c]; after its cancellation it is ahead by something in [0, c], never above the burst, and equal if nothing intervened |
| DailyQuotas.DailyQuota.Flush | internal/data/limiter/local/daily_quota.go:44-49 | use is zeroed and the next midnight set exactly when the reset time has passed |
| DailyQuotas.DailyQuota.Probe | internal/data/limiter/local/daily_quota.go:220-237 | infinite above the limit, zero if there is room after a due reset, else the time to the reset, which is the wait exactly (`DelayIsWait`) |
| DailyQuotas.DailyQuota.TryAcquire | internal/data/limiter/local/daily_quota.go:240-261 | after a due reset, the units are taken exactly if there is room for them |
| DailyQuotas.DailyReservation.CompleteWithActual | internal/data/limiter/local/daily_quota.go:342-354 | the first settlement of an acquired reservation moves the use by actual minus reserved, not below zero; any other call changes nothing |
| DailyQuotas.DailyReservation.Cancel | internal/data/limiter/local/daily_quota.go:322-334 | gives the units of an acquired reservation back, once, not below zero |
| DailyQuotas.DailyReservation.Complete | internal/data/limiter/local/daily_quota.go:187-189 | a completed request keeps its unit |
| DailyQuotas.StepSound | internal/data/limiter/local/daily_quota.go:44-49 | each operation keeps the use non-negative and at most limit plus the overdraft of the period |
| DailyQuotas.UseWithinLimit | internal/data/limiter/local/daily_quota.go:95-189 | the same in every run, whatever is settled in whichever period |
| DailyQuotas.RequestsWithinLimit | internal/data/limiter/local/daily_quota.go:95-111 | for requests, which are never overdrawn, use is within [0, limit] in every run |
| DailyQuotas.AccurateStep | internal/data/limiter/local/daily_quota.go:342-354 | use still equals the charges of the reservations of this period after a step if and only if the step is harmless: not the settlement, with a change, of a reservation of another period that moves the use; within the period the clamp at zero never fires |
| DailyQuotas.AccurateRun | internal/data/limiter/local/daily_quota.go:240-354 | in every run of harmless steps use equals outstanding plus consumed units at all times |
| DailyQuotas.CancelAfterMidnightUndercounts | internal/data/limiter/local/daily_quota.go:177-181 | a concrete run in which a cancellation after midnight leaves one standing request and a count of zero |
| DailyQuotas.NextMidnightIsNext | internal/data/limiter/local/daily_quota.go:44-49 | a reset time is a whole number of days, after now, and at most a day later |
| DailyQuotas.DelayIsWait | internal/data/limiter/local/daily_quota.go:220-237 | without room the finite delay is exactly the wait: if nobody else acts there is no room until it has passed, and there is from then on |
| ConcurrencyLimiters.ConcurrencyLimiter.constructor | internal/data/limiter/local/concurrency.go:47-56 | no permit in use, and the default estimate |
| ConcurrencyLimiters.ConcurrencyLimiter.Probe | internal/data/limiter/local/concurrency.go:61-67 | zero if a permit is free, else the estimate; the permit it tried is given back |
| ConcurrencyLimiters.ConcurrencyLimiter.Reserve | internal/data/limiter/local/concurrency.go:71-76 | never refuses; the reservation has a permit if one was free |
| ConcurrencyLimiters.ConcurrencyLimiter.RecordWaitTime | internal/data/limiter/local/concurrency.go:79-83 | the new estimate lies between the old one and the observed wait |
| ConcurrencyLimiters.EstimateForgets | internal/data/limiter/local/concurrency.go:79-83 | after n equal waits the distance of the estimate from them has shrunk by the factor 0.7 to the n, exactly |
| ConcurrencyLimiters.ConcurrencyReservation.Wait | internal/data/limiter/local/concurrency.go:103-120 | blocks until a permit is free, others taking and returning theirs meanwhile, or the caller gives up: success takes one permit besides what the others moved, giving up none; what is held or settled is let through at once |
| ConcurrencyLimiters.ConcurrencyReservation.Cancel | internal/data/limiter/local/concurrency.go:123-128 | the permit goes back once, and only if it was taken |
| Limiters.ProbePredictsReserve | internal/biz/repository/limiter.go:26-87 | for every kind of limiter: reserving fails exactly if the probe is infinite, and otherwise the reservation's delay is the probed one |
| Limiters.RefusedDelayIsWait | internal/data/limiter/local/daily_quota.go:124-138 | a daily reservation that was refused reports exactly how long it takes until an attempt to acquire it succeeds, if nobody else acts |
| Limiters.AskedAgain | internal/data/limiter/local/daily_quota.go:140-169 | a waiting reservation asks as if anew: it gets what a reservation made now would, with the same effect on the limiter, and gets it when a probe shows no delay, unless a reset is due at this very time |
| Limiters.LookingShowsNormal | internal/data/limiter/local/daily_quota.go:220-237 | a probe changes nothing that a later probe or delay at the same time could see |
| Limiters.ProbePredictsReserveAll | internal/biz/model/limiter.go:129-165 | the same for all limiters of a model, each occurring once: all-or-nothing reserving fails exactly if some probe is infinite, and otherwise the largest delay is the largest probed one |
| LimiterPools.LimiterPool.Probe | internal/biz/repository/limiter.go:45-55 | a probe of a shared limiter leaves all reservations and books as they are |
| LimiterPools.LimiterPool.Reserve | internal/biz/repository/limiter.go:45-55 | either nothing changes, or one reservation is added and its limiter charged accordingly |
| LimiterPools.LimiterPool.Settle | internal/biz/repository/limiter.go:62-87 | settling changes this reservation and its limiter only, and keeps the books and the history of the pool |
| LimiterPools.LimiterPool.Complete | internal/biz/repository/limiter.go:26-42 | the same for completed requests |
| LimiterPools.LimiterPool.Acquire | internal/data/limiter/local/daily_quota.go:140-169 | an attempt to acquire what was refused changes this reservation and its limiter only |
| LimiterPools.LimiterPool.RecordWaitTime | internal/data/limiter/local/concurrency.go:79-83 | only the estimate of this limiter moves, and stays positive |
| LimiterPools.LimiterPool.DelayOf | internal/biz/repository/limiter.go:26-42 | the delay of a reservation at this time, without a visible effect |
| LimiterPools.LimiterPool.WaitUntilReady | internal/data/limiter/local/token_bucket.go:153-160 | succeeds only once the ready time has come; the reservation is as it was, whatever others did |
| LimiterPools.LimiterPool.WaitToAcquire | internal/data/limiter/local/daily_quota.go:290-319 | retries until the units are acquired or the caller gives up; success means acquired |
| LimiterPools.LimiterPool.Wait | internal/biz/repository/limiter.go:26-42 | after success the reservation is charged and its time has come, after failure it is as before; nothing else of this request has changed |
| LimiterPools.PermitsHeld | internal/data/limiter/local/concurrency.go:71-133 | in every reachable state of the pool, whoever acted, permits in use are the reservations that hold one, and within the limit |
| LimiterPools.ReserveKeepsBooks | internal/data/limiter/local/token_bucket.go:82-100 | reserving a permit or tokens of a bucket keeps level + charges + spill; daily quotas are kept by `UseIsCharged` |
| LimiterPools.SettleKeepsBooks | internal/data/limiter/local/token_bucket.go:236-249 | so does settling, for permits and buckets |
| LimiterPools.SettledOnce | internal/biz/repository/limiter.go:62-87 | settling a second time, at any time and for any use, changes neither reservation nor limiter, for every kind of limiter, acquired or not |
| LimiterHistories.SettledExactlyOnce | internal/biz/repository/limiter.go:62-87 | in every history of calls by whomever, an acquired reservation that is settled has been settled by exactly one call, and one that is not by none |
| DailyAccounts.StepMirrored | internal/data/limiter/local/daily_quota.go:44-354 | each call on the pool does to a daily limiter and its reservations what the operation it amounts to does to the quota and its holds |
| DailyAccounts.UseIsCharged | internal/data/limiter/local/daily_quota.go:44-354 | in every reachable pool, use of a daily limiter is within [0, limit + overdraft of the period], and is exactly what the reservations acquired in this period are charged as long as every settlement was harmless |
| DailyAccounts.UnchargedHold | internal/data/limiter/local/daily_quota.go:177-189 | a reservation that is charged nothing adds nothing to the use of its daily limiter |
| Refunds.AllReturned | internal/biz/model/limiter.go:104-113 | when all that a request has reserved at one instant is charged nothing, every limiter is as it was, but for a due refill or reset |
| Refunds.RestoredLooksSame | internal/biz/model/limiter.go:104-113 | and nobody can tell: the same probes and delays |
| Capacities.ReservedIfGrantable | internal/biz/repository/limiter.go:45-55 | whoever acts in between, reserving in turn is refused if and only if some demand is above its limiter's limit or burst |
| Capacities.ProbedIfGrantable | internal/biz/repository/limiter.go:45-55 | and the largest probe is infinite in exactly the same cases |
| ReservationSets.ReserveEach | internal/biz/model/limiter.go:137-165 | one reservation per limiter, in order, for the units asked, up to the first refusal, while others act; with nobody else acting, exactly what reserving these demands in order gives |
| ReservationSets.CancelEach | internal/biz/model/limiter.go:104-113 | after the loop none of the listed reservations is charged, and nothing else of the request has changed; with nobody else acting the limiters carry that much less |
| ReservationSets.CompleteEach | internal/biz/model/limiter.go:117-126 | only the listed reservations are completed, each once |
| ReservationSets.WaitEach | internal/biz/model/limiter.go:84-101 | after success all listed reservations are charged and their time has come |
| ReservationSets.DelayOverIsLargest | internal/biz/model/limiter.go:67-80 | the loop's running maximum is the largest of the delays, or zero if none is positive |
| ReservationSets.ReservationSet.ReserveGroup | internal/biz/model/limiter.go:137-165 | the set then holds exactly one reservation per limiter of the scope, token limiters only if there are tokens to reserve; on a refusal it still holds what it got |
| ReservationSets.ReservationSet.MaxDelay | internal/biz/model/limiter.go:67-80 | with nobody else acting, the largest delay of what the set holds |
| ReservationSets.ReservationSet.Wait | internal/biz/model/limiter.go:84-101 | asks every reservation for its delay and skips waiting if and only if none had any; after success everything held is charged and its time come, daily reservations excepted if it was skipped; after failure nothing of the request is charged and the set is empty; with nobody else acting it is skipped exactly if no delay of what is held is positive |
| ReservationSets.ReservationSet.Cancel | internal/biz/model/limiter.go:104-113 | no reservation of the request stays charged; on an empty set nothing happens at all |
| ReservationSets.ReservationSet.Complete | internal/biz/model/limiter.go:117-126 | requests keep their unit and return their permit, tokens are charged at the actual use; the set is empty |
| Elections.TryReserveAll | internal/biz/model/limiter.go:137-165 | all or nothing: limiters are asked in order up to the first refusal, which happens, whoever else acts, if and only if some demand is above its limit or burst; refusal leaves nothing of the request charged, success holds one reservation per applicable limiter; with nobody else acting the limiters are exactly as reserving in order leaves them, and after a refusal as they were |
| Elections.ProbeDelay | internal/biz/model/limiter.go:40-58 | with nobody else acting, the largest probe of the scope |
| Elections.ProbeModelDelay | internal/biz/model/limiter.go:129-133 | with nobody else acting, the largest probe of all demands of the model, and no reservation has changed |
| Elections.ProbeThenReserve | internal/biz/model/limiter.go:129-165 | on a shared pool at one instant: the probe is the largest of all demands, the set is refused if and only if it was infinite, that is, if reserving in order fails, and otherwise the delay of the set is the probed one |
| Elections.Shuffle | internal/biz/model/election.go:48-51 | the result is a permutation |
| Elections.SortByDelay | internal/biz/model/election.go:52-55 | the result is a permutation in ascending order of delay |
| Elections.ProbeAll | internal/biz/model/election.go:34-46 | every limiter of every candidate is asked for what the request needs of it, and every candidate is in the list that the largest answer calls for: available, waitable, or neither; with nobody else acting that is the delay of its demands |
| Elections.ReserveAndWait | internal/biz/model/election.go:59-68 | one candidate: its reservations, ready but perhaps for daily quotas if there was nothing to wait for, or nothing charged; which of these, is on record; with nobody else acting up to the wait it is what the limiters foretell, and all is ready if and only if not (no delay, and some daily quota full with its reset due at that instant) |
| Elections.FirstToReserve | internal/biz/model/election.go:57-71 | the candidates of finite delay are tried once each, in the order of their delays, up to the first that succeeds; those before it have failed and hold nothing |
| Elections.ElectFromCandidates | internal/biz/model/election.go:29-72 | with others acting throughout: the calls the request makes are the probes of all candidates and then the attempts; attempts are at candidates of finite delay, in the order of their probed delays, each once, up to the winner, and at all of them if there is none; a delay is finite if and only if the candidate can be granted at all, and no attempt is ever refused, so each failed one is a wait given up; the winner holds one reservation for each of its limiters, ready as `ReserveAndWait` says, and nothing else stays charged; with nobody else acting up to the first wait, delays and first attempt are those the limiters foretell |
| Elections.UnacquiredWithoutDelay | internal/biz/model/limiter.go:84-87 | a reservation that was refused shows no delay if and only if it is daily, within the limit, and there is room again or the reset is due now |
| Elections.UnchargedAfterWait | internal/biz/model/limiter.go:84-101 | a run of the set's wait that succeeds, skipped, with its one reservation not acquired: a full daily quota, a reservation refused by it, and a cancellation by another request in between |
| Elections.LosersUseNothing | internal/biz/model/election.go:57-72 | no reservation that a request has let go adds to the use of a daily quota |
| ChatUseCases.ElectForChat | internal/biz/model/chat.go:132-177 | either an open chat model that holds one reservation for each limiter of a candidate, the winner, or nothing charged; the calls made are those of one election, which was won or lost accordingly |
| ChatUseCases.ChatModel.RecordUsage | internal/biz/model/chat.go:21-56 | afterwards every reservation is settled: requests keep their unit, tokens are charged at the reported total, or at the estimate if none was reported |
| ChatUseCases.ChatModel.Close | internal/biz/model/chat.go:58-60 | cancels everything unless usage was recorded, and then changes nothing |
| ChatUseCases.CompletedIsCharged | internal/biz/model/limiter.go:117-126 | completing what a set collected charges exactly the listed requests one unit and the listed tokens the actual use, whatever others did since |
| ChatUseCases.SettledMeansOnce | internal/biz/repository/limiter.go:62-87 | if all a request has acquired is released, each has been settled by exactly one call, of whomever |
| ChatUseCases.Chat | internal/biz/chat/chat.go:43-58 | given what the upstream replies: if a candidate is elected, usage is recorded if and only if the upstream replied, with what it reported; without election every candidate that can be granted was tried. Each reservation the request has acquired is settled, and by exactly one call; if usage was recorded, one request for each request limiter of the winner and the actual tokens for each token limiter stay charged and no more, otherwise nothing |
| ChatUseCases.ChatStream | internal/biz/chat/chat.go:60-88 | the same given the events of the stream, whether it breaks off, and when the client leaves or a send fails: usage is recorded unless the stream breaks off with the client there or a send fails, and is what the events reduced until then report |
| ChatUseCases.Relay | internal/biz/chat/chat.go:67-84 | the loop over the events, with the reducer as an object |
| ChatUseCases.RecordedWhat | internal/biz/chat/chat.go:60-88 | usage is recorded if and only if no send failed and the client left or the upstream came to its end; recorded are the last counts in the events taken until then |
| ChatUseCases.ReportedIsCharged | internal/biz/chat/accumulator.go:147-173 | what a stream is charged is the sum of the last input and output counts it has reported, or the estimate |
| Reducers.ContentCell.Apply | internal/biz/chat/accumulator.go:108-145 | a delta goes to the content it is shared with, by its kind |
| Reducers.ChatEventReducer.AppendContent | internal/biz/chat/accumulator.go:81-106 | a new content is listed, and its index refers to it from now on |
| Reducers.ChatEventReducer.ApplyToBlock | internal/biz/chat/accumulator.go:108-145 | only the content that the index refers to changes, seen through the list |
| Reducers.ChatEventReducer.BeginMessage | internal/biz/chat/accumulator.go:59-62 | id and model are set, contents kept |
| Reducers.ChatEventReducer.Observe | internal/biz/chat/accumulator.go:147-173 | the request id and the usage report are merged, nothing else changes |
| Reducers.ChatEventReducer.Reduce | internal/biz/chat/accumulator.go:48-79 | the objects, with their sharing, do what the value-level step says |
| Reducers.RunDenotes | internal/biz/chat/accumulator.go:48-145 | from any sound state, contents grow by exactly their own later deltas, and new ones follow in the order of their start |
| Reducers.ReducerDenotes | internal/biz/chat/accumulator.go:48-145 | the reduced contents are read off the stream without any state: in order of start, each with the concatenation of its own texts, signatures and tool input |
| Reducers.InterleavingDoesNotMatter | internal/biz/chat/accumulator.go:48-145 | streams with the same order of starts, and per index the same events up to how deltas are cut, have the same contents |
| Reducers.HeaderIsLast | internal/biz/chat/accumulator.go:48-79 | message id, model and status of the reduced response are the last that the stream gave |
| Reducers.UsageIsLastReport | internal/biz/chat/accumulator.go:147-173 | each usage field is its last non-zero report |
| SequentialStreams.DenoteScripts | internal/biz/chat/accumulator.go:81-145 | contents streamed one after the other are reduced to exactly those contents |
| SequentialStreams.ReducedSequential | internal/biz/chat/accumulator.go:48-173 | the whole response of a sequential stream: id, model, status, contents, usage |
| ResponsesStreamServers.ResponsesStreamServer.WriteEvent | internal/server/openai/responses_stream.go:532-559 | the event gets the next sequence number |
| ResponsesStreamServers.ResponsesStreamServer.SetItemOf | internal/server/openai/responses_stream.go:351-376 | writing through a block's item pointer changes the listed item at its output index and no other |
| ResponsesStreamServers.ResponsesStreamServer.PutBlock | internal/server/openai/responses_stream.go:595-600 | the index refers to this block |
| ResponsesStreamServers.ResponsesStreamServer.DeleteBlock | internal/server/openai/responses_stream.go:602-606 | the index refers to no block |
| ResponsesStreamServers.ResponsesStreamServer.AppendItem | internal/server/openai/responses_stream.go:561-565 | the next output index is allocated and the item listed there, as a new object |
| ResponsesStreamServers.ResponsesStreamServer.WriteItemDone | internal/server/openai/responses_stream.go:508-530 | the item is marked completed, in the list too, and announced as it then is |
| ResponsesStreamServers.ResponsesStreamServer.FlushPendingText | internal/server/openai/responses_stream.go:508-516 | a held-back message is announced done, and held back no more |
| ResponsesStreamServers.ResponsesStreamServer.FlushPendingReasoning | internal/server/openai/responses_stream.go:488-496 | the same for reasoning |
| ResponsesStreamServers.ResponsesStreamServer.FlushPendingItems | internal/server/openai/responses_stream.go:518-523 | afterwards nothing is held back |
| ResponsesStreamServers.ResponsesStreamServer.StartTextBlock | internal/server/openai/responses_stream.go:155-196 | continues the held-back message of the same non-empty id and phase with its next part, else announces it done and adds a new item |
| ResponsesStreamServers.ResponsesStreamServer.StartReasoningBlock | internal/server/openai/responses_stream.go:210-247 | continues the held-back reasoning item if the id is empty or its own, else adds a new item |
| ResponsesStreamServers.ResponsesStreamServer.StartToolBlock | internal/server/openai/responses_stream.go:261-286 | adds a call item and announces it |
| ResponsesStreamServers.ResponsesStreamServer.HandleContentStart | internal/server/openai/responses_stream.go:128-153 | flushes what the new content cannot continue, then starts a block of its kind |
| ResponsesStreamServers.ResponsesStreamServer.HandleContentDelta | internal/server/openai/responses_stream.go:288-327 | text goes to the block and out as a delta for its item, of the kind that `DeltasTyped` says; an unknown index is ignored |
| ResponsesStreamServers.ResponsesStreamServer.FinishTextBlock | internal/server/openai/responses_stream.go:351-376 | the part is closed with its text, stored in the item, and the item held back |
| ResponsesStreamServers.ResponsesStreamServer.FinishReasoningBlock | internal/server/openai/responses_stream.go:378-402 | the same for a summary part |
| ResponsesStreamServers.ResponsesStreamServer.FinishToolBlock | internal/server/openai/responses_stream.go:404-416 | arguments are closed, stored and the item announced done |
| ResponsesStreamServers.ResponsesStreamServer.HandleContentStop | internal/server/openai/responses_stream.go:329-349 | the block of the index is finished by its kind and forgotten; an unknown index is ignored |
| ResponsesStreamServers.ResponsesStreamServer.HandleContentSnapshot | internal/server/openai/responses_stream.go:418-458 | encrypted reasoning completes the held-back item it belongs to, or becomes an item of its own, done at once |
| ResponsesStreamServers.ResponsesStreamServer.HandleMessageStart | internal/server/openai/responses_stream.go:109-126 | a new response without items; output indices go on |
| ResponsesStreamServers.ResponsesStreamServer.HandleMessageStop | internal/server/openai/responses_stream.go:460-472 | the response ends with status and usage, in the terminal event its status calls for |
| ResponsesStreamServers.ResponsesStreamServer.AccumulateUsage | internal/server/openai/responses_stream.go:567-586 | a report's non-zero fields replace what was known |
| ResponsesStreamServers.ResponsesStreamServer.Send | internal/server/openai/responses_stream.go:69-107 | the linked objects (items, blocks, pending blocks) do what the value-level step says; items are only ever added |
| ResponsesProtocol.StepInv | internal/server/openai/responses_stream.go:69-107 | every event, of whatever block, keeps the invariant: numbering, every item's life well formed, at most one item pending and that one not open, no item open twice |
| ResponsesProtocol.ProtocolSafety | internal/server/openai/responses_stream.go:69-107 | the invariant holds after every stream of events, however blocks interleave |
| ResponsesProtocol.ItemLifetimes | internal/server/openai/responses_stream.go:478-565 | said of the events: sequence numbers are 0, 1, …; an item's events begin with the only one that adds it and end with the only one that announces it done, as the server has it; only listed items are spoken of |
| ResponsesProtocol.PositionInOutput | internal/server/openai/responses_stream.go:109-126 | the output of the response is what was added since the last message start, so an output index is the position of its item in the output exactly up to that number, which is 0 if only the first event starts a message |
| ResponsesCompletion.StepCounts | internal/server/openai/responses_stream.go:69-107 | what each event does to the open indices, to the items nobody will finish, and to the number of terminal events |
| ResponsesCompletion.RunCounts | internal/server/openai/responses_stream.go:69-107 | over every stream: the open blocks are the indices started and not stopped, and the items nobody will finish are as many as the reopenings |
| ResponsesCompletion.EveryItemDone | internal/server/openai/responses_stream.go:460-472 | after the message stop every item has been announced done, in its final form, if and only if no open index was started again and every block was stopped; the terminal event is last, and there is one for each message stop |
| ResponsesCompletion.EndsAs | internal/server/openai/responses_stream.go:460-472 | status and terminal event for each chat status, in a literal table: calls and completion complete the response, a token limit or refusal leaves it incomplete, all else fails it |
| ResponsesDeltas.DeltasTyped | internal/server/openai/responses_stream.go:288-327 | for every stream of events, interleaved or not: the deltas written have the texts of the chat deltas that find a block open, in order; and each is of the kind of its item (output text of the part added last, summary text of the summary part added last, arguments of a call) if and only if every delta suits its open block |
| ResponsesHeaders.EndsNamed | internal/server/openai/responses_stream.go:109-126 | whatever the stream, the final response has the id and model of the message that started last (the id of its request if it has none) and the last counts reported |
| ResponsesConverters.ItemAssembler.FlushOpenMessage | internal/server/openai/responses_convert.go:304-313 | an open message is listed, with a made-up id if it has none |
| ResponsesConverters.ItemAssembler.OpenReasoningItem | internal/server/openai/responses_convert.go:319-340 | the item for this id: the open one if the id is empty and there is one, the known one of this id wherever it is listed, else a new one |
| ResponsesConverters.ItemAssembler.AppendSummary | internal/server/openai/responses_convert.go:350-354 | the summary grows in the listed item the pointer refers to |
| ResponsesConverters.ItemAssembler.SetEncryptedContent | internal/server/openai/responses_convert.go:383-383 | the encrypted form is set in the listed item |
| ResponsesConverters.ItemAssembler.AppendText | internal/server/openai/responses_convert.go:358-376 | joins the open message of the same id and phase, or lists that one and opens another |
| ResponsesConverters.ItemAssembler.AppendCall | internal/server/openai/responses_convert.go:386-400 | a call item after everything open |
| ResponsesConverters.ItemAssembler.AppendContent | internal/server/openai/responses_convert.go:342-402 | the objects with their sharing do what the value-level step says |
| ResponsesConverters.ConvertContents | internal/server/openai/responses_convert.go:298-406 | the loop over shared item objects computes the items that the value-level fold denotes |
| ItemGrouping.ServedNext | internal/server/openai/responses_stream.go:155-247 | whatever ids are given, the server goes by `Continued`: the last content, and the id of its item, given or made up |
| ItemGrouping.ServedCount | internal/server/openai/responses_stream.go:128-458 | so for all contents: it has as many items as contents that are not continued, and holds back the last one if that is text |
| ItemGrouping.AgreedInStep | internal/server/openai/responses_convert.go:319-402 | as long as each content joins an item in both or in neither, the assembly has the server's items, and its table of ids is exactly the ids of reasoning so far |
| ItemGrouping.SyntheticInjective | internal/server/openai/responses_convert.go:445-447 | made-up ids of different output indices differ |
| GroupingMeaning.ServedTells | internal/server/openai/responses_stream.go:155-458 | the served items say what the contents say, in order: final answers, other text, reasoning, seals and calls |
| GroupingMeaning.ServedNamed | internal/server/openai/responses_convert.go:445-447 | each item has an id that a content gave, or the one made up of its kind (msg, rs, fc), the response and its place |
| GroupingAgreement.StaysApart | internal/server/openai/responses_convert.go:298-406 | items that have come apart stay so, whatever follows |
| GroupingAgreement.SameItemsIfAgree | internal/server/openai/responses_convert.go:298-406 | for all contents, whatever ids are given: the server's items are the converter's if and only if at every content the one joins it to an item where the other does |
| GroupingTraps.ServerJoinsLess | internal/server/openai/responses_stream.go:478-506 | whatever the stream server puts into an existing item, by the contents alone, the converter does too |
| GroupingTraps.ContinuedIfJoins | internal/server/openai/responses_stream.go:155-247 | unless an id must be made up where one of that form is given, what the server joins is what it joins by the contents alone |
| GroupingTraps.JoinedNext | internal/server/openai/responses_convert.go:319-402 | under the same condition the converter adds an item exactly if it does not join, judged by the contents alone |
| GroupingTraps.ServedEqualsConverted | internal/server/openai/responses_convert.go:298-406 | under the same condition both give the same items if and only if no content is a trap, that is, joined by one and not the other; the server has one item more for each trap |
| GroupingTraps.TidyIsGenuine | internal/server/openai/responses_convert.go:445-447 | the condition is met when all texts and thoughts are given ids, of whatever form |
| GroupingTraps.TidyHasNoTraps | internal/server/openai/responses_convert.go:358-376 | with ids given and equal reasoning ids adjacent and sealed last there are no traps |
| GroupingTraps.IdlessTextsAreTraps | internal/server/openai/responses_convert.go:361-363 | adjacent texts of one phase without ids: one message converted, two streamed |
| GroupingTraps.SummaryAfterSealIsTrap | internal/server/openai/responses_stream.go:425-427 | a summary after the encrypted form of its item: joined when converted, a new item when streamed |
| StreamEqualsConvert.ScriptShown | internal/server/openai/responses_stream.go:128-458 | streaming one content has the effect on the items that the grouping rule says |
| StreamEqualsConvert.RunsAlike | internal/server/openai/responses_stream.go:69-107 | events that only report usage do not change what is said of the items |
| StreamEqualsConvert.StreamEqualsConversion | internal/server/openai/responses_stream.go:69-472 | for every sequential stream, whatever ids it gives: the stream server's final response equals the conversion of the reduced response if and only if every content joins an item in both or in neither; all but the items is equal in any case |
| StreamEqualsConvert.OneItemMorePerTrap | internal/server/openai/responses_stream.go:69-472 | unless an id must be made up where another of that form is given: they are equal if and only if there are no traps, and the stream has one item more per trap |
| StreamEqualsConvert.StreamTells | internal/server/openai/responses_stream.go:69-472 | for every sequential stream the streamed output says what its contents say, in order and as which kind, under ids given or made up as they should be |
| StreamEqualsConvert.TidyStreamEqualsConversion | internal/server/openai/responses_convert.go:259-406 | with ids given, of whatever form, and reasoning in one piece, streaming equals converting |
| StreamEqualsConvert.MadeUpIdsCollideOnARun | internal/server/openai/responses_convert.go:445-447 | for every sequential stream of two texts of one phase, the second with the id the server makes up for the first: the stream's response has one message, the converted response two |
| ResponsesUpstream.AsSeq | internal/data/upstream/openai/openai.go:172-202 | the driver yields the events of the arrivals up to the first error, and of the finish if there was none; what they say is in `ResponsesUpstreamContents` |
| ResponsesUpstream.KeepsGoing | internal/data/upstream/openai/responses_convert.go:465-487 | only errors and deltas for an output without an open part end the stream |
| ResponsesUpstreamShape.TableIsOpenSlot | internal/data/upstream/openai/responses_convert.go:547-581 | after every stream the index table is empty or exactly the open slot, and which output is open is read off the arrivals |
| ResponsesUpstreamShape.StepAgrees | internal/data/upstream/openai/responses_convert.go:405-527 | each arrival keeps the events well formed, or breaks them exactly if it offends |
| ResponsesUpstreamShape.DecodedWellFormed | internal/data/upstream/openai/responses_convert.go:405-541 | the decoded events are well formed if and only if no part is added to an output whose part is open and nothing that speaks comes after the end; a begun stream without errors is then ended |
| ResponsesUpstreamContents.DecodedContents | internal/data/upstream/openai/responses_convert.go:405-541 | for every stream, up to the first error or stray delta, the reduced contents (indices aside) are read off the arrivals: each opened part and call in order of opening, with its item id, its phase (final answer, normal or reasoning), its call id and name, and the concatenation of the deltas that name its output while it is open; each non-empty encrypted form is a sealed thought |
| ResponsesUpstreamContents.DecodedHeader | internal/data/upstream/openai/responses_convert.go:405-541 | id and model are the last created, the status is that of the terminal event (pending tool use when completed with a call heard), failed when the upstream just stops, usage the last counts that are not zero |
| ResponsesRegroup.ConvertReasoning | internal/data/upstream/openai/responses_convert.go:307-331 | a content for each summary and each raw text, then one for a non-empty encrypted form |
| ResponsesRegroup.ConvertMessage | internal/data/upstream/openai/responses_convert.go:333-348 | a content for each output text; other parts are dropped |
| ResponsesRegroup.ConvertOutput | internal/data/upstream/openai/responses_convert.go:266-282 | the contents of all items, in order |
| ResponsesRegroup.FlattenedVisible | internal/data/upstream/openai/responses_convert.go:284-305 | flattening sees exactly the visible part of each item |
| ResponsesRegroup.RegroupsBack | internal/server/openai/responses_convert.go:298-406 | the contents of a list of items are grouped back into that list if and only if the list is canonical |
| ResponsesRegroup.RegroupUndoesFlatten | internal/data/upstream/openai/responses_convert.go:284-348 | regrouping the flattened upstream items gives back what is visible of them if and only if that is canonical: ids, at least one content each, distinct reasoning ids, no adjacent messages of one id and phase |
| ResponsesRegroup.AssembledProduced | internal/server/openai/responses_convert.go:298-406 | for contents whose encrypted forms are not empty, what the converter gives is solid, and no two reasoning items have one id |
| ResponsesReplay.RequestMessages.AppendAdjacentMessage | internal/server/openai/responses_convert.go:247-257 | the last message is extended in place if the role is the same, else a message is added; nothing is added for an item that gives none |
| ResponsesReplay.ConvertInput | internal/server/openai/responses_convert.go:52-75 | instructions, plain text and items, in that order, build the messages that the value-level fold denotes |
| ResponsesReplay.ItemReplayed | internal/server/openai/responses_convert.go:124-245 | an output item sent back as input is converted to a message of the model with the item's contents |
| ResponsesReplay.OneMessage | internal/server/openai/responses_convert.go:124-257 | all replayed items become one message |
| ResponsesReplay.ReplayRoundTrip | internal/server/openai/responses_convert.go:124-406 | contents converted to items and replayed as input come back as one message with the same contents in order, but for signatures, indices and the item ids of texts and calls, if and only if reasoning comes in runs of one id with the seal, not empty, last |
| ResponsesReplay.MessagesAlternate | internal/server/openai/responses_convert.go:247-257 | for every input, roles alternate, and all that the items say is said in order by whom they say it: developers for the system, assistants for the model, users otherwise, with texts, images, calls, results of calls and reasoning each as given |
| ResponsesReplay.InputSaid | internal/server/openai/responses_convert.go:52-75 | instructions are said first, by the system; an input that is one text is said by the user |
| ChatStreamServers.ChunksNamed | internal/server/openai/chat_stream.go:74-100 | after every stream, each chunk that an event adds carries the id and model of the message that started last |
| ChatStreamServers.UsageOnce | internal/server/openai/chat_stream.go:102-111 | over every stream, usage is written once if a message stopped with usage reported by then, and never before or again |
| ChatMeaning.ChunksTell | internal/server/openai/chat_stream.go:130-238 | for every stream of events, interleaved or not, the chunks say what the events say: text as reasoning exactly if its block is open as a thought, calls by ordinals in the order of their starts, finish reasons by a literal table of statuses |
| ChatContents.DecodedContents | internal/data/upstream/openai/chat_convert.go:370-481 | for every stream of chunks the reduced contents are made up of its pieces in order: adjacent text of one phase is one content, so are adjacent fragments of one call, with its id, name and joined arguments; a report of usage separates |
| ChatContents.DecodedHeader | internal/data/upstream/openai/chat_convert.go:370-435 | id and model are those of the first chunk, the status what the finish reasons meant (a literal table) when usage was last reported, or at the end if never, counts the last that are not zero |
| ChatUpstream.AsSeq | internal/data/upstream/openai/openai.go:117-142 | the driver yields the events of all chunks, and of the finish unless the upstream reports an error |
| ChatUpstreamShape.StepAgrees | internal/data/upstream/openai/chat_convert.go:370-422 | each chunk keeps the events well formed, or breaks them exactly if it says something after a report |
| ChatUpstreamShape.DecodedWellFormed | internal/data/upstream/openai/chat_convert.go:370-435 | the decoded events are well formed (fresh indices in order, one block open, deltas and stops for it, one final end) if and only if nothing is said after a report of usage; a stream with chunks is then ended |
| ChatUpstreamShape.EveryReportEnds | internal/data/upstream/openai/chat_convert.go:413-419 | the message is stopped as often as usage is reported, once if never |
| ChatNormalForm.NormalizedFromTranscript | internal/data/upstream/openai/chat_convert.go:450-464 | what survives a Chat stream depends only on who said which characters and which calls were made |
| ChatNormalForm.SameTranscript | internal/data/upstream/openai/chat_convert.go:450-481 | contents with the same transcript have the same normal form |
| ChatNormalForm.NormalizedSays | internal/server/openai/chat_stream.go:178-212 | normalizing loses none of it |
| ChatNormalForm.NormalizedMerged | internal/data/upstream/openai/chat_convert.go:450-481 | and leaves no empty text and no two adjacent texts of one phase |
| ChatRoundTrip.ScriptAbreast | internal/server/openai/chat_stream.go:146-217 | streaming one content keeps the decoding client abreast of the server: its contents are those sent, normalized |
| ChatRoundTrip.ChatRoundTrips | internal/server/openai/chat_stream.go:130-238 | for every sequential stream, decoding and reducing the chunks the server wrote gives the reduced response with normalized contents (no snapshots, signatures, ids or empty texts; outcome as normal; adjacent texts merged), and its status if it has a finish reason |
| GeminiUpstream.ConvertMessage | internal/data/upstream/google/convert.go:280-331 | one content per part that has text or a call, with its signature; its phase is that of `CompleteTells` |
| GeminiUpstream.AsSeq | internal/data/upstream/google/google.go:106-125 | the driver yields the events of all answers that have content; what they say is in `GeminiMeaning` |
| GeminiInvariance.StreamedContents | internal/data/upstream/google/convert.go:333-413 | the reduced contents are a function of the parts and the breaks that finish reasons make |
| GeminiInvariance.ChunkingDoesNotMatter | internal/data/upstream/google/convert.go:333-413 | streams of the same parts and breaks have the same contents, however they are cut into answers |
| GeminiInvariance.StreamedEqualsCoalesced | internal/data/upstream/google/convert.go:280-413 | the streamed contents are those of the complete answer with adjacent texts of one phase made one (texts and signatures joined) if and only if no finish reason splits such texts; there is one content more per split |
| GeminiInvariance.StreamedResponse | internal/data/upstream/google/convert.go:373-440 | with one finish reason, at the end, the whole response agrees but for the status, which agrees if and only if no earlier call is missed |
| GeminiInvariance.EveryFinishEnds | internal/data/upstream/google/convert.go:373-382 | the message is stopped as often as an answer with content has a finish reason |
| GeminiInvariance.StoppedIfFinished | internal/data/upstream/google/google.go:113-115 | the message is stopped if and only if some answer with content has a finish reason |
| GeminiInvariance.EndReported | internal/data/upstream/google/convert.go:373-382 | the usage is the last reported one |
| GeminiMeaning.CompleteTells | internal/data/upstream/google/convert.go:280-331 | the contents of a complete answer say what its parts say: text marked as a thought as reasoning, other text and calls as normal, in order, with all signatures |
| GeminiMeaning.StreamedTells | internal/data/upstream/google/convert.go:333-413 | so do the contents of a stream, however it is cut |
| GeminiMeaning.DecodedHeader | internal/data/upstream/google/convert.go:333-440 | for every stream, id and model are those of the first answer with content, the status is what the last finish reason means (a literal table, with the calls of its own answer), usage the last known when it came |
| GeminiMeaning.CompleteHeader | internal/data/upstream/google/convert.go:280-331 | a complete answer keeps id, model and usage, and has the status of the same table |
| AnthropicContents.DecodedContents | internal/data/upstream/anthropic/convert.go:327-422 | for every stream, interleaved or not, the reduced contents are its blocks in order of their starts: text as normal, thinking and redacted thinking as reasoning, calls with id and name, each with its own deltas |
| AnthropicContents.DecodedHeader | internal/data/upstream/anthropic/convert.go:327-461 | id and model are the last started, the status what the last stop reason means (a literal table), counts the last that are not zero, input with what was cached |
| AnthropicDeltas.WrittenSuits | internal/server/anthropic/stream.go:119-207 | for every stream of events, each delta written belongs to an open block of its own kind (text, thinking, tool) if and only if every delta of the stream suits the start by which its block is open |
| AnthropicStreams.StopWritten | internal/server/anthropic/stream.go:82-100 | whatever the stream, a message stop is written with the reason for its status (a literal table) and tokens that add up to those reported |
| AnthropicStreams.TextWritten | internal/server/anthropic/stream.go:119-207 | after every stream of events, interleaved or not, text is written as thinking if and only if the last event about its block is its start as a thought |
| AnthropicStreams.EndsOnce | internal/server/anthropic/stream.go:209-212 | whatever the stream, the end that the handler has written is the last event and the only one of its kind |
| AnthropicPassThrough.StartPassed | internal/server/anthropic/stream.go:119-142 | a block start passes decoder and encoder as itself, its text split into a delta of its own, and the server knows its phase |
| AnthropicPassThrough.RedactedPassed | internal/server/anthropic/stream.go:180-197 | a redacted block passes as its start and its stop at once |
| AnthropicPassThrough.DeltaPassed | internal/server/anthropic/stream.go:144-178 | a delta that suits its block passes as itself |
| AnthropicPassThrough.ReasonPasses | internal/data/upstream/anthropic/convert.go:428-441 | tool_use, max_tokens and refusal pass as themselves, every other stop reason as end_turn |
| AnthropicPassThrough.PassesThrough | internal/data/upstream/anthropic/convert.go:327-422 | for every stream of well-formed text, thinking, tool and redacted blocks, interleaved or not, decoding and re-encoding writes the same events at the same indices, but for text in block starts made deltas, stop reasons as in `ReasonPasses`, cache counts folded, and pings, unknown events, unknown deltas, message deltas without a stop reason (with their token counts) and the message stop dropped, if and only if each redacted block is stopped before anything that is not dropped |

## Left out

- Wire formats: HTTP, server-sent events, JSON and the provider SDKs. What the SDKs parse is a datatype here; output that fails to be written is not modelled, and neither are telemetry, logging, counters and configuration.
- Ollama, embeddings and chaining to another Neurouter: thin wrappers over what is modelled.
- Requests: generation settings, tools, images, system prompts and the conversion of messages for each upstream. Of request conversion only the instructions and input of Responses are modelled.
- Complete (not streamed) responses of OpenAI Chat and Anthropic: field copies.
- Which models are candidates, aliases and the estimate of tokens in `ElectForChat` (`internal/biz/model/chat.go:65-130`): candidates and estimate are parameters; the model requires the estimate to be positive, as 512 is always added.
- Numbers: durations and levels are `real`, so nanosecond truncation and float rounding are left out; counts are unbounded, so the wrap-around of `uint32` is left out.
- Days are those of UTC; other time zones and clock changes only move the reset times.
- Liveness: waiting is a finite number of attempts between which others act, after which the caller may give up. A set can hold one permit while it waits for another, so the code promises no more. `semaphore.Weighted` is a counter, without its queue.
- Concurrency: calls on a limiter are atomic, as they are under its lock; between any two calls of a request others may act. A retry of a daily `Wait` and its sleep are two steps.
- LimiterPool.Interfere: other requests act through the limiters' operations only, which is how all requests act.
- ElectFromCandidates: exact foretelling ends with the first wait, since others act while a request waits; attempts after it are described by their calls. Which available candidate is tried first is random.
- SettleKeepsBooks: as ReserveKeepsBooks.
- ReserveKeepsBooks: permits and buckets only; daily quotas, whose reset forgets what was charged, are accounted for by period in `DailyAccounts`.
- StreamEqualsConversion: for one message with its contents one after the other under one request id, deltas of the kind of their content, snapshots of opaque data. For other interleavings the order of items is that of starts in both, but which items join is not stated.
- ChatRoundTrips: contents of no known kind may carry signatures only. Statuses without a finish reason arrive as unspecified.
- OneItemMorePerTrap: excludes streams that leave the id of a text or thought to be made up and give another of its kind an id of that form; for these only StreamEqualsConversion holds, and the number of items is not stated.
- PassesThrough: block types that the client does not know are not passed on by the code, so streams with unknown blocks are excluded.
- ChatStream: an upstream that reports an error after the client has left is one that has not broken off yet.
- FlattenedVisible: refusals, other parts and unknown items leave no contents, so only what is visible of an item can come back.
- In the Responses stream server a block is a value that holds its item's object; the program keeps pointers to blocks, which only one place refers to at a time.
- Metadata and the raw fields that are copied to and fro without being looked at.
