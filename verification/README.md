# TraDemGen demand generator: a verified model

This project models the travel demand generator of TraDemGen in Dafny and proves how its layers
work together: the samplers, the demand streams, and the manager and batch that pop and refill one
event queue for all streams.

Run `dafny verify dfyconfig.toml` to verify everything.

## How the model is organised

- `RealArithmetic`, `Search`, `Sums`, `Options`: exact real arithmetic, the two searches on sorted
  arrays, finite sums.
- `ContinuousAttributeLite`, `ContinuousAttribute`, `CategoricalAttributeLite`: the samplers. The
  piecewise-linear sampler is compared with the distribution that it inverts and with the older
  multimap sampler.
- `RandomGeneration`, `DateTime`, `DemandStreamKey`: the sources of draws, date-times in
  milliseconds, the keys of the streams.
- `DemandStreamModel` says, as functions on values, what a stream computes. `DemandStream` holds the
  class, proved against these functions. `PoissonProcess`, `OrderStatistics` and `StreamRuns` prove
  what the functions promise, for one call and for whole runs of date-times; `RequestRuns` and
  `Delivery` for the requests themselves, and for whether they precede departure; `RequestDraws` says
  what each field of a request owes to its draw.
- `DriverModel` is the generator as a state machine (streams, queue, status, and an account of what
  was queued, popped and rejected). `DriverInvariant` and `DriverSteps` hold the invariant and the
  proof that every step keeps it; `DriverTheorems` and `DriverCourses` what it says about whole runs.
- `EventQueue`, `TrademgenService`, `DemandManager`, `DemandCreation`, `Cancellations` and
  `GenerateDemand` hold the operations that change objects, proved to take exactly the steps of the
  state machine. `BatchTheorems`, `BatchCourses` and `RowDemand` state the main results on what the
  batch reports.
- `Instances` exhibits a library, engines whose exponential draws scale with the rate, and whole runs
  of the demand that TraDemGen builds in, which meet all assumptions.

## Modelling decisions

- Probabilities and day offsets are exact reals, date-times are integers in milliseconds, dates are
  day numbers counted from a Sunday.
- Random engines are tapes: the k-th draw of an engine is an arbitrary function of k, and a
  generator remembers its position. Uniform draws lie in [0, 1), exponential draws are not
  negative. A run keeps the tape of the shared generator and the order in which the streams drew from
  it. `std::pow` is known by x^(1/n) being the positive n-th root, `std::log` by being
  negative below one. All results hold for every such tape.
- The demand file knows the years 2000 to 2099 (trademgen/command/DemandParserHelper.cpp:520-521):
  the texts of these dates, and no others, are taken to be distinct and eleven characters long. Only
  the results on key strings need that.
- `Instances` shows that the assumptions can be met together. The one fact it takes for granted is
  that positive reals have roots, which Dafny's reals do not provide.
- The SEvMgr library is known by what TraDemGen's comments and uses say of it: an added event gets
  its own date-time as stamp if that is free and some free stamp otherwise
  (trademgen/command/DemandManager.cpp:376-382), the earliest event is popped, `addStatus` adds to
  the expected total of an event type, and creates the status of a type that has none with the same
  number as its actual total (trademgen/service/TRADEMGEN_Service.cpp:793-804 counts on that for
  cancellations), `updateStatus` sets the actual total. Altering the stamp of an event leaves
  the date-time of its booking request alone.
- A `std::map` that feeds a sampler is the list of its entries in iteration order.

## Where the code differs from what its comments say

- trademgen/bom/DemandStream.cpp:416-417 says that adding one millisecond makes the next event
  strictly later. It does so only for offsets in different milliseconds:
  `StrictlyLaterIffInLaterMillisecond` and `SuccessiveRequestsSeparateIff` give the exact condition
  for the conversion and for two requests of a stream, `SuccessiveRequestsCanCoincide` a stream whose
  first two requests carry the same date-time. What always holds, and suffices for the batch, is
  that date-times never decrease.
- A stream is meant to deliver its total. Under order statistics a rejected request leaves the
  stream without an event that could resume it (`RejectionStrandsStream`). The built-in demand fails:
  its pattern ends at departure, and `StrandedRunExists` gives draws that strand, at a total of two,
  its stream from Singapore to Bangkok. The exact condition is on the state that the run starts from
  (`OrderStreamDeliversIffPasses`, `OrderRunDeliversIffPasses`, `OrderRunDeliversIffStartDoes`), and,
  for all draws at once, on the pattern and the preferred times of the row
  (`DeliversIffLandsInTime`, `LandsInTimeIff`).
- Nothing in the code makes the Poisson main loop end for all draws. It ends if and only if each
  stream does (`RunEndsIffStreamsEnd`); `BoundedDrawsEnd` gives a sufficient condition on the draws.
- trademgen/command/DemandManager.cpp:446-447 overwrites the status, so rejections inside
  generateFirstRequests leave no trace in it; the results about the status count only later ones.

## Model

| member | source | states |
|---|---|---|
| BatchTheorems.OrderRunDeliversIffStartDoes | trademgen/batches/trademgen_generateDemand.cpp:315-403 | order statistics: a run pops what its streams were to generate (and, with no negative drawn total, the count returned by generateFirstRequests) if and only if the state it starts from makes every due request precede departure; it does when all streams land in time |
| BatchCourses.RunPopsCourses | trademgen/batches/trademgen_generateDemand.cpp:315-403 | for every stream of every run the popped requests that carry its string are the stream's own successive requests, all of them and in order, up to the first that does not precede departure, however streams interleave and stamps collide |
| BatchCourses.TraceMerges | trademgen/batches/trademgen_generateDemand.cpp:330-397 | at every turn of the main loop the requests popped so far are, stream by stream, the first of those generated |
| RowDemand.RowsDeliverTotals | trademgen/batches/trademgen_generateDemand.cpp:315-403 | every run on the streams of rows that land in time pops the sum of max(0, total) requests |
| RowDemand.StreamLandsIffRowDoes | trademgen/command/DemandManager.cpp:275-291 | a stream of a row lands in time if and only if the pattern of the row stays below the deadline of the earliest of its preferred times |
| RowDemand.GenerateDemandOfRows | trademgen/batches/trademgen_generateDemand.cpp:280-425 | the streams of any rows without a common key are created and run any number of times; every run is a complete run of the state machine |
| RowDemand.RowsMakeSystem | trademgen/command/DemandManager.cpp:257-260 | with three-letter airports, rows without a common key give streams with pairwise distinct strings, each of which can be run |
| RowDemand.FirstRunIsStart | trademgen/command/DemandManager.cpp:275-291 | a service that holds the streams of the rows and an empty queue stands at the start of a run |
| BatchCourses.NextRunReplays | trademgen/batches/trademgen_generateDemand.cpp:408-409 | run k + 1 pops for each stream exactly the course of a stream created afresh, with the total that the reset drew, that reads all its draws from where run k left its engines |
| BatchTheorems.OrderRunDeliversCount | trademgen/batches/trademgen_generateDemand.cpp:315-403 | the same law inside one run: the totals are popped if and only if no request was rejected; streams that land in time reject nothing |
| BatchTheorems.PoissonRunDeliversCounters | trademgen/batches/trademgen_generateDemand.cpp:315-403 | Poisson process: a run pops exactly the requests that the streams counted; each stream has sent one sentinel; the status is the returned count less the sentinels sent after the first phase |
| BatchTheorems.PoppedRequestsAreInOrder | trademgen/batches/trademgen_generateDemand.cpp:330-357 | in a run in which no stamp collided, requests are popped in non-decreasing date-time order across all streams |
| BatchTheorems.PoppedAtItsDateTime | trademgen/batches/trademgen_generateDemand.cpp:335-343 | without collisions every request is popped at the stamp that is its own date-time |
| DriverTheorems.SanityCheckNeverFails | trademgen/batches/trademgen_generateDemand.cpp:378-390 | the request generated after a pop is never earlier than the popped one, for all draws and even with collisions, so the sanity check cannot fail |
| DriverTheorems.EventsArePoppedInOrder | trademgen/batches/trademgen_generateDemand.cpp:330-397 | in every reachable state without collisions the popped stamps are sorted and not later than anything still queued |
| DriverTheorems.OrderStreamBalances | trademgen/batches/trademgen_generateDemand.cpp:330-397 | at every loop head a stream has zero or one queued event, its generated less popped less rejected requests; with none queued and none rejected it is complete |
| DriverCourses.OrderStreamDeliversIffPasses | trademgen/batches/trademgen_generateDemand.cpp:330-403 | when the queue is empty a stream has delivered max(0, total) if and only if the next max(0, total) requests of the state it started from all precede departure |
| DriverCourses.OrderRunDeliversIffPasses | trademgen/batches/trademgen_generateDemand.cpp:330-403 | the pops of a complete run equal the sum of max(0, total) if and only if the start makes all due requests of all streams precede departure |
| DriverCourses.TraceRequestsCarryStamps | trademgen/command/DemandManager.cpp:340-397 | in every state of every run the requests generated for a stream carry the first of the date-times of the stream's own course, in order |
| DriverCourses.TraceHasCourses | trademgen/command/DemandManager.cpp:340-397 | in every state of every run each stream has taken successive generateNextRequest calls from its start on, all passed but perhaps the last |
| Delivery.DeliversIffLandsInTime | trademgen/command/DemandManager.cpp:368-394 | for any total of at least one, a fresh stream, with the pattern and the preferred times of its row, delivers it for all draws if and only if every cumulative probability that can be drawn passes the guard for the earliest preferred time |
| Delivery.LandsInTimeIff | trademgen/command/DemandManager.cpp:368-370 | a monotone pattern does so if and only if it starts before the deadline of the earliest preferred time, and ends before it or has reached probability one there |
| Delivery.LandingPasses | trademgen/command/DemandManager.cpp:368-370 | such a stream makes all requests pass from any of its states |
| Delivery.DefaultBoundLandsInTime | trademgen/basic/BasConst.cpp:34-35 | a stream whose pattern ends at -1 or before lands in time |
| DriverTheorems.OrderStreamDelivers | trademgen/batches/trademgen_generateDemand.cpp:330-403 | when the queue is empty a stream has delivered max(0, total) exactly if none of its requests was rejected |
| DriverTheorems.OrderRunConservesDemand | trademgen/batches/trademgen_generateDemand.cpp:330-403 | the pops of a finished run equal the sum of max(0, total) over the streams if and only if nothing was rejected; they never exceed it |
| DriverTheorems.EarlyPatternsConserveDemand | trademgen/command/DemandManager.cpp:368-394 | with streams that land in time the law holds for every run and the status keeps the sum of the totals |
| DriverTheorems.RejectionStrandsStream | trademgen/command/DemandManager.cpp:385-394 | when the first of several requests of the only stream is rejected, the main loop finds an empty queue, the stream is never resumed, and the status still counts all its requests |
| Instances.BuiltInIsLate | trademgen/command/DemandManager.cpp:596-720 | the built-in pattern ends at departure: probability 0.995 lies after six o'clock, the earliest preferred time from Singapore, so that stream does not land in time |
| Instances.StrandedRunExists | trademgen/command/DemandManager.cpp:385-394 | a whole run of that stream that pops none of two requests |
| Instances.BuiltInRunExists | trademgen/command/DemandManager.cpp:586-880 | the three built-in streams, as rows, have whole runs under either method, with exponential draws that scale with the rate |
| Instances.BuiltInStreamEnds | trademgen/bom/DemandStream.cpp:256-293 | with such draws a built-in stream comes to its sentinel from every position of its engine |
| DriverTheorems.PoissonRequestIsQueuedIffCounted | trademgen/command/DemandManager.cpp:352-394 | a request is queued exactly if the counter of its stream moved; what is rejected is the sentinel |
| DriverTheorems.PoissonStreamBalances | trademgen/batches/trademgen_generateDemand.cpp:330-397 | a started stream has no queued event exactly if it has emitted its one sentinel; its counter is its popped requests plus the queued one |
| DriverTheorems.PoissonRunConservesDemand | trademgen/command/DemandManager.cpp:414-447 | when the queue is empty every stream emitted exactly one sentinel, pops equal the sum of the counters, and the status is the sum of the totals less the sentinels emitted after generateFirstRequests |
| DriverCourses.RunEndsIffStreamsEnd | trademgen/batches/trademgen_generateDemand.cpp:330-403 | a run comes to an empty queue if and only if each of its streams, from the state it starts from, gives finitely many requests |
| DriverCourses.RunsAreFinite | trademgen/batches/trademgen_generateDemand.cpp:307-410 | then every run has at most one step per stream, one for the status, and as many pops as its streams give requests |
| DriverCourses.PopsAreBounded | trademgen/batches/trademgen_generateDemand.cpp:330-403 | in every reachable state the pops are bounded by what the streams give |
| DriverTheorems.RunGoesOn | trademgen/batches/trademgen_generateDemand.cpp:330-330 | a run that is not complete can always take a step: it only stops with an empty queue |
| DriverCourses.RunCompletes | trademgen/batches/trademgen_generateDemand.cpp:307-410 | whatever a run has done so far, it can be carried on to an empty queue |
| StreamRuns.BoundedDrawsEnd | trademgen/bom/DemandStream.cpp:256-293 | a Poisson stream whose draws, at the rates that its walk looks up, are at least delta, ends from every position of its engine within (-1 - v0)/delta requests and the sentinel |
| DriverTheorems.StepAdvances | trademgen/batches/trademgen_generateDemand.cpp:330-403 | every step advances the run by one stream, one status update or one pop, and leaves the drawn totals alone |
| DriverSteps.TraceHasInv | trademgen/batches/trademgen_generateDemand.cpp:307-403 | every state of every run, under either method and for all draws and stamps, satisfies the invariant that balances streams, queue and status |
| DriverSteps.StepKeepsInv | trademgen/command/DemandManager.cpp:340-454 | every step keeps the invariant |
| DriverSteps.SeedStepKeepsInv | trademgen/command/DemandManager.cpp:414-442 | a turn of the loop of generateFirstRequests keeps it |
| DriverSteps.StatusUpdateKeepsInv | trademgen/command/DemandManager.cpp:444-447 | the final status update keeps it; it forgets the decrements made before |
| DriverSteps.LoopStepKeepsInv | trademgen/batches/trademgen_generateDemand.cpp:330-397 | a turn of the main loop keeps it |
| DriverSteps.PopKeepsSound | trademgen/batches/trademgen_generateDemand.cpp:332-335 | popping the earliest event frees exactly the slot of its stream and keeps the rest of the invariant |
| DriverSteps.GenerateKeepsSound | trademgen/command/DemandManager.cpp:340-397 | generating for a stream without queued event settles that stream and keeps the rest of the invariant |
| DriverSteps.VisitKeepsInv | trademgen/command/DemandManager.cpp:420 | setting the first-request flag of a stream that is about to start changes nothing |
| DriverSteps.PoppedIsNotOvertaken | trademgen/batches/trademgen_generateDemand.cpp:352-360 | after a pop the stream in hand is not behind anything popped, unless a stamp collided |
| DriverInvariant.NextRequestOutcome | trademgen/bom/DemandStream.cpp:541-622 | a request carries its stream's string and a date-time not before the stream's previous one; under Poisson exactly the sentinel is rejected and not counted, under order statistics every request is counted |
| DriverInvariant.NextTimePasses | trademgen/command/DemandManager.cpp:368-370 | the departure guard accepts every Poisson request and rejects every sentinel; it accepts every order-statistics request of a stream that lands in time |
| GenerateDemand.GenerateDemand | trademgen/batches/trademgen_generateDemand.cpp:280-425 | every run is a complete run of the state machine that reports its count and its popped requests, and each starts from the reset of the one before |
| GenerateDemand.GenerateRun | trademgen/batches/trademgen_generateDemand.cpp:307-410 | one run: from the first requests to an empty queue |
| GenerateDemand.MainLoop | trademgen/batches/trademgen_generateDemand.cpp:330-403 | the pop and refill loop ends with an empty queue, and its trace is a trace of the state machine |
| GenerateDemand.LoopTurn | trademgen/batches/trademgen_generateDemand.cpp:330-403 | one turn is one step of the state machine; the popped request is the earliest event |
| GenerateDemand.Refill | trademgen/batches/trademgen_generateDemand.cpp:356-397 | if the stream has more requests its next one is generated; the assertion of the sanity check is unreachable |
| GenerateDemand.ResetService | trademgen/batches/trademgen_generateDemand.cpp:408-409 | the reset yields the start of the next run, with the totals that the shared generator gives |
| GenerateDemand.NextStartIsStart | trademgen/bom/DemandStream.cpp:625-628 | the reset of any reachable state is a start of a run |
| GenerateDemand.NextStartDrawsTotals | trademgen/bom/DemandStream.cpp:149-168 | the streams of the next run draw their totals in turn, each the whole number nearest to its draw, and read on from where their engines stand |
| DemandManager.GenerateFirstRequests | trademgen/command/DemandManager.cpp:400-454 | seeds every stream by steps of the state machine; the returned count and the status are the sum of the drawn totals |
| DemandManager.SeedAll | trademgen/command/DemandManager.cpp:414-442 | the loop over the streams, with the sum of their totals |
| TrademgenService.TrademgenService.GenerateNextRequest | trademgen/command/DemandManager.cpp:340-397 | the stream of the string generates its next request, which is queued or rejected with a decrement of the status |
| TrademgenService.TrademgenService.QueueOrReject | trademgen/command/DemandManager.cpp:368-394 | a request that precedes departure is queued under a free stamp, its own if free; otherwise the status loses one |
| TrademgenService.TrademgenService.GetEventGenerator | trademgen/command/DemandManager.cpp:348-350 | look-up by string finds the first stream of that string |
| TrademgenService.TrademgenService.StillHavingRequestsToBeGenerated | trademgen/command/DemandManager.cpp:317-337 | whether the stream of the string has more requests; its generated, expected and drawn numbers are recorded under the string |
| TrademgenService.TrademgenService.SeedStream | trademgen/command/DemandManager.cpp:417-441 | one turn of generateFirstRequests on the objects |
| TrademgenService.TrademgenService.PopEvent | trademgen/service/TRADEMGEN_Service.cpp:712-726 | the earliest event leaves the queue |
| TrademgenService.TrademgenService.Reset | trademgen/command/DemandManager.cpp:456-485 | every stream is reset with a newly drawn total, in order, and the queue is emptied |
| TrademgenService.TrademgenService.AddEventGenerator | trademgen/command/DemandManager.cpp:223 | a new stream joins the service and shares no object with the others |
| EventQueue.InsertionLosesNothing | trademgen/command/DemandManager.cpp:376-383 | whatever stamps collide, an insertion loses no event and gives the new one a stamp of its own |
| EventQueue.EventService.AddEvent | trademgen/command/DemandManager.cpp:376-383 | the event is added under a free stamp, its own date-time if that is free |
| EventQueue.EventService.PopEvent | trademgen/batches/trademgen_generateDemand.cpp:334-335 | the event of the least stamp is removed and returned |
| PoissonProcess.NextPoissonTimeOutcome | trademgen/bom/DemandStream.cpp:197-296 | for every draw sequence a call ends with a counted request before -1 or with the sentinel one day after departure; the last time never goes back and stays in [v0, -1] |
| PoissonProcess.LastTimeNeverGoesBack | trademgen/bom/DemandStream.cpp:197-296 | over all calls the last time never decreases and never passes -1 |
| PoissonProcess.CallFollowsTape | trademgen/bom/DemandStream.cpp:197-296 | with exponential draws that are unit draws divided by the rate: a call takes one draw for each interval that it crosses and one for its request; every interval crossed has no more demand left than its unit draw, and the request lies where the expected demand since the entry into its interval equals the unit draw |
| PoissonProcess.TickFollowsUnitDraw | trademgen/bom/DemandStream.cpp:249-289 | a tick takes one draw; it emits a request if and only if the unit draw is less than mean x (F(upper bound) - F(last)), and then mean x (F(x) - F(last)) is the unit draw |
| PoissonProcess.TickDrawsAtRateOfInterval | trademgen/bom/DemandStream.cpp:249-259 | whatever the engine, the draw is made at the rate that spreads the demand left in the interval over its days |
| PoissonProcess.CallConsumesExpectedDemand | trademgen/bom/DemandStream.cpp:245-254 | the daily rates looked up in a call, times the days advanced, sum to mean x (F(last after) - F(last before)), whatever is drawn |
| PoissonProcess.CallsConsumeExpectedDemand | trademgen/bom/DemandStream.cpp:245-289 | the same over any number of calls |
| PoissonProcess.CompleteRunConservesDemand | trademgen/bom/DemandStream.cpp:230-293 | every complete run consumes exactly mean x (F(-1) - F(v0)) |
| PoissonProcess.CallKeepsSpaced | trademgen/bom/DemandStream.cpp:256-293 | requests stay at least the least exponential draw apart |
| PoissonProcess.RunIsBounded | trademgen/bom/DemandStream.cpp:256-293 | with draws of at least delta a fresh stream emits fewer than (-1 - v0)/delta requests and then its sentinel |
| PoissonProcess.SpacedIsBounded | trademgen/bom/DemandStream.cpp:256-293 | the number of requests emitted is bounded by the days walked over the least draw |
| DemandStreamModel.TickIsConsistent | trademgen/bom/DemandStream.cpp:245-289 | the look-ups of bound and rate never fail, a draw does not move the time back nor past -1, and a move to the next interval uses up a knot, so the recursion ends |
| DemandStreamModel.PatternStart | trademgen/bom/DemandStream.cpp:211-221 | the first call starts at the lower bound of the pattern |
| DemandStreamModel.DailyRatePositive | trademgen/bom/DemandStream.cpp:249-254 | every rate on the walk is positive |
| OrderStatistics.NextOrderTimeInvertsConditionalSurvival | trademgen/bom/DemandStream.cpp:301-358 | the new cumulative probability inverts the conditional distribution of the next order statistic: its survival probability is 1 - u, cut off at the clamp |
| OrderStatistics.RunFollowsTape | trademgen/bom/DemandStream.cpp:345-384 | over a run request k + 1 inverts the conditional distribution, given request k, at the k-th draw counted from the start of the run, and k calls advance the generator by k |
| OrderStatistics.NextOrderTimeOutcome | trademgen/bom/DemandStream.cpp:299-396 | a call moves the cumulative probability strictly up, below one, counts the request, and does not move the date-time back |
| OrderStatistics.NextOrderTimeMonotoneInDraw | trademgen/bom/DemandStream.cpp:345-358 | a larger draw never gives a smaller cumulative probability |
| OrderStatistics.RunThinsOutProbability | trademgen/bom/DemandStream.cpp:321-384 | over any run the probability left is positive and at most 0.999999^k of what it was, and the counter moves by one per call |
| OrderStatistics.FreshRunThinsOutProbability | trademgen/bom/DemandStream.cpp:321-384 | from a fresh stream 0 < 1 - c_k <= 0.999999^k, and more requests remain exactly until the total is reached |
| OrderStatistics.FactorIsRoot | trademgen/bom/DemandStream.cpp:345-352 | the factor is the positive n-th root of 1 - u, clamped below one |
| StreamRuns.NextTimeOutcome | trademgen/bom/DemandStream.cpp:197-396 | under either method the next date-time is not before the one that the state stands for, and is the one that the new state stands for unless it is the sentinel |
| StreamRuns.StampsNeverDecrease | trademgen/bom/DemandStream.cpp:197-427 | over a whole run of a stream the request date-times never decrease, sentinel included |
| RequestRuns.RequestsCarryStamps | trademgen/bom/DemandStream.cpp:541-622 | successive generateNextRequest calls give requests at the date-times of the stream's course, whatever the characteristics' and the shared generator give |
| RequestRuns.RequestsNeverDecrease | trademgen/bom/DemandStream.cpp:541-622 | so the date-times of a stream's requests never decrease |
| RequestDraws.RequestAtCall | trademgen/bom/DemandStream.cpp:541-622 | request i of a run carries the date-time of call i of its generator of date-times |
| RequestDraws.RequestAnswersDraws | trademgen/bom/DemandStream.cpp:430-510 | every field of a request answers a draw of its own: five categories by the mass intervals of their values, two flags by their ratios, preferred time and value of time by the rule of three between two knots and, for monotone distributions, by F; the preferred time is the last whole second whose probability does not exceed its draw |
| RequestDraws.RunAnswersDraws | trademgen/bom/DemandStream.cpp:541-622 | over a run request i answers the nine draws from place 9 i on |
| RequestRuns.ResetReplaysRequests | trademgen/bom/DemandStream.cpp:625-628 | after a reset a stream gives requests at the date-times of a fresh stream on the date-time draws still to come, whatever the last run left and whatever else is drawn in either run |
| RequestRuns.CallsAgree | trademgen/bom/DemandStream.cpp:541-622 | streams that are set up alike and read the same draws from where they stand give the same requests, in every part |
| RequestRuns.CallsPass | trademgen/command/DemandManager.cpp:368-370 | whether the next requests of a stream all precede departure does not depend on the shared generator |
| RequestRuns.LaterRequestsPayNoLess | trademgen/bom/DemandStream.cpp:511-528 | of two requests of a stream with equal shared draws the later one pays no less, and neither less than a non-negative minimum |
| StreamRuns.StrictlyLaterIff | trademgen/bom/DemandStream.cpp:416-419 | a call gives a strictly later date-time exactly if it ends the stream or its request falls into a later millisecond than the state stands for |
| StreamRuns.SuccessiveRequestsSeparateIff | trademgen/bom/DemandStream.cpp:416-419 | the same for two successive requests, under either method |
| StreamRuns.SuccessiveRequestsCanCoincide | trademgen/bom/DemandStream.cpp:416-419 | a Poisson stream whose first two requests carry the same date-time |
| StreamRuns.ResetReplaysFreshStream | trademgen/bom/DemandStream.cpp:149-168 | the date-times after a reset are those of a fresh stream on the date-time draws still to come |
| StreamRuns.CoursesAgree | trademgen/bom/DemandStream.cpp:197-396 | the date-times depend only on date, pattern, mean and date-time draws |
| StreamRuns.WtpNeverFallsAlongRun | trademgen/bom/DemandStream.cpp:511-528 | along a run the FRAT5 coefficient never decreases and stays in [1.10, 2.500000001]; for equal draws neither does the willingness to pay, which is never below a non-negative minimum |
| StreamRuns.Frat5InvertsPattern | trademgen/basic/BasConst.cpp:67-70 | the coefficient inverts the default pattern up to a year before departure and is an end point beyond |
| StreamRuns.Frat5NeverFalls | trademgen/bom/DemandStream.cpp:516-522 | the coefficient never falls as the request date nears departure |
| StreamRuns.WtpOfMedianDraw | trademgen/bom/DemandStream.cpp:524-525 | the median customer pays the minimum times the coefficient |
| StreamRuns.WtpFollowsLogOfDraw | trademgen/bom/DemandStream.cpp:524-525 | what is paid above the minimum is to its value for another draw as the logarithms of the draws, and times log(0.5) it is the minimum times (coefficient - 1) log(u) |
| StreamRuns.RarerDrawPaysMore | trademgen/bom/DemandStream.cpp:524-525 | with a positive minimum a draw of smaller logarithm pays strictly more |
| StreamRuns.Frat5OfDays | trademgen/basic/BasConst.cpp:67-70 | the coefficient at the ten knots of the default pattern |
| DemandStream.DemandStream.constructor | trademgen/bom/DemandStream.cpp:81-116 | a new stream is initialised: nothing generated, the rounded normal draw as total, both flags set |
| DemandStream.DemandStream.Init | trademgen/bom/DemandStream.cpp:149-168 | draws the total and sets both flags; nothing else changes |
| DemandStream.DemandStream.Reset | trademgen/bom/DemandStream.cpp:625-628 | clears counter and cumulative probability, then initialises |
| DemandStreamModel.RequestsToBeGenerated | trademgen/bom/DemandStream.cpp:159-164 | the total is the integer nearest to the normal draw, which may be negative |
| DemandStream.DemandStream.StillHavingRequestsToBeGenerated | trademgen/bom/DemandStream.cpp:171-194 | the remaining number, or the flag, by method |
| DemandStream.DemandStream.GenerateTimeOfRequestPoissonProcess | trademgen/bom/DemandStream.cpp:197-296 | computes the specified next Poisson date-time and state, by the recursion of the source |
| DemandStream.DemandStream.GenerateTimeOfRequestStatisticsOrder | trademgen/bom/DemandStream.cpp:299-396 | computes the specified next order-statistics date-time and state |
| DemandStream.DemandStream.DrawCustomer | trademgen/bom/DemandStream.cpp:430-470 | channel, trip type, stay and frequent flyer are looked up for four draws in order; no draw is out of range when the masses are complete |
| DemandStream.DemandStream.GenerateWTP | trademgen/bom/DemandStream.cpp:511-528 | computes the specified willingness to pay |
| DemandStream.DemandStream.GenerateNextRequest | trademgen/bom/DemandStream.cpp:540-622 | computes the specified request and state, with its draws in the order of the source |
| RandomGeneration.RandomGenerationContext.Reset | trademgen/basic/RandomGenerationContext.cpp:43-46 | zeroes counter and cumulative probability |
| RandomGeneration.RandomGenerationContext.IncrementGeneratedRequestsCounter | trademgen/basic/RandomGenerationContext.cpp:38-40 | adds one to the counter |
| DateTime.ConversionIsFloorPlusOne | trademgen/bom/DemandStream.cpp:400-427 | seconds and milliseconds together are floor(86 400 000 d) + 1, for negative offsets too |
| DateTime.ConversionError | trademgen/bom/DemandStream.cpp:400-427 | the conversion exceeds the exact offset, by at most one millisecond |
| DateTime.ConversionMonotone | trademgen/bom/DemandStream.cpp:400-427 | later offsets are not converted to earlier durations |
| DateTime.StrictlyLaterIffInLaterMillisecond | trademgen/bom/DemandStream.cpp:416-419 | a later offset becomes strictly later exactly if it falls into a later millisecond, as it does when the gap is a millisecond |
| DateTime.PlusOneDoesNotSeparate | trademgen/bom/DemandStream.cpp:416-419 | two offsets half a millisecond apart become equal |
| DateTime.PassesIffBeforeDeadline | trademgen/bom/DemandStream.cpp:400-427 | a request passes the guard for a preferred time exactly if its offset is below that time, cut to the day, less the added millisecond |
| DateTime.GuardComparesInstants | trademgen/command/DemandManager.cpp:368-370 | the guard on dates and times of day compares the request with the preferred time, cut to the departure date |
| DateTime.EarlierDateIffAlwaysBeforeDeparture | trademgen/command/DemandManager.cpp:368-370 | a request passes for every preferred time exactly if it is made on an earlier date |
| DateTime.AtLeastOneDayBeforeDeparture | trademgen/bom/DemandStream.cpp:264-275 | an offset of at most -1 lands on a date before departure |
| DateTime.SentinelIsAfterDeparture | trademgen/bom/DemandStream.cpp:230-243 | the sentinel lies one day and one millisecond after the reference departure time and never passes the guard |
| ContinuousAttributeLite.QuantileIsRightInverse | trademgen/basic/ContinuousAttributeLite.hpp:39-77 | the lookup is the right generalised inverse of the piecewise-linear distribution: F(x) <= p exactly if x <= getValue(p) |
| ContinuousAttributeLite.CdfOfQuantile | trademgen/basic/ContinuousAttributeLite.hpp:39-77 | F(getValue(p)) = p for p between the first and the last cumulative |
| ContinuousAttributeLite.QuantileOfCdf | trademgen/basic/ContinuousAttributeLite.hpp:39-77 | getValue(F(x)) = x when the cumulatives strictly increase |
| ContinuousAttributeLite.QuantileOfKnot | trademgen/basic/ContinuousAttributeLite.hpp:39-77 | at the cumulative of a knot the lookup gives its value |
| ContinuousAttributeLite.QuantileMonotone | trademgen/basic/ContinuousAttributeLite.hpp:39-77 | the lookup is monotone in the probability, even for unsorted cumulatives |
| ContinuousAttributeLite.QuantileClamped | trademgen/basic/ContinuousAttributeLite.hpp:51-56 | results stay between the end knots and are the end knots outside the cumulatives |
| ContinuousAttributeLite.EqualCumulativesUnreachable | trademgen/basic/ContinuousAttributeLite.hpp:68-70 | the branch for equal cumulatives is never taken, even for unsorted cumulatives |
| ContinuousAttributeLite.SlopeUpToUpperBound | trademgen/basic/ContinuousAttributeLite.hpp:82-128 | slope and upper bound belong to one segment: F(y) - F(x) = slope (y - x) up to the bound |
| ContinuousAttributeLite.UpperBoundIsKnot | trademgen/basic/ContinuousAttributeLite.hpp:116-128 | the upper bound is the least knot above the key |
| ContinuousAttributeLite.SegmentIndex | trademgen/basic/ContinuousAttributeLite.hpp:92-93 | the index assertions hold for every key from the first knot to below the last |
| ContinuousAttributeLite.ContinuousAttributeLite.GetValue | trademgen/basic/ContinuousAttributeLite.hpp:39-77 | the search loop and the interpolation compute the inverse distribution |
| ContinuousAttributeLite.ContinuousAttributeLite.GetDerivativeValue | trademgen/basic/ContinuousAttributeLite.hpp:82-111 | the loop computes the slope of the segment |
| ContinuousAttributeLite.ContinuousAttributeLite.GetUpperBound | trademgen/basic/ContinuousAttributeLite.hpp:116-128 | the loop computes the next knot |
| ContinuousAttributeLite.ContinuousAttributeLite.constructor | trademgen/basic/ContinuousAttributeLite.hpp:157-160 | the two arrays hold the values and cumulatives of the map in its order, also when it is empty |
| ContinuousAttribute.OldAgreesExactlyOffPlateaus | trademgen/basic/ContinuousAttribute.hpp:52-78 | for a monotone distribution the older lookup never exceeds the newer one; they agree exactly if p is not the height of a plateau, where they return its left and right ends |
| ContinuousAttribute.OldQuantileValue | trademgen/basic/ContinuousAttribute.hpp:52-78 | the older lookup returns the first knot that carries p, and the newer value between knots |
| ContinuousAttribute.ContinuousAttribute.DetermineInverseCumulativeDistributionFromCumulativeDistribution | trademgen/basic/ContinuousAttribute.hpp:132-142 | the inverse multimap holds exactly the exchanged knots ordered by cumulative, and in the order of the knots when the cumulatives are monotone |
| ContinuousAttribute.ContinuousAttribute.GetValue | trademgen/basic/ContinuousAttribute.hpp:52-78 | computes the older lookup, on any distribution |
| CategoricalAttributeLite.LookupSelectsIntervalOfMass | trademgen/basic/CategoricalAttributeLite.hpp:41-56 | the positive probabilities that select a value form a half-open interval of length exactly its mass |
| CategoricalAttributeLite.LookupSucceedsUpToTotalMass | trademgen/basic/CategoricalAttributeLite.hpp:52-55 | the lookup succeeds exactly up to the total mass, if any mass is positive |
| CategoricalAttributeLite.CoversDrawsIff | trademgen/basic/CategoricalAttributeLite.hpp:41-56 | no draw in [0, 1) is out of range if and only if the masses sum to one or more |
| CategoricalAttributeLite.OnlyPositiveMassesSelected | trademgen/basic/CategoricalAttributeLite.hpp:154-164 | a value without positive mass is never returned |
| CategoricalAttributeLite.LookupAnswersDraw | trademgen/basic/CategoricalAttributeLite.hpp:41-56 | what the lookup finds is the value of an entry in whose mass interval the draw lies |
| CategoricalAttributeLite.ValuesArePositiveMasses | trademgen/basic/CategoricalAttributeLite.hpp:61-68 | a value is in the list exactly if its mass is positive |
| CategoricalAttributeLite.BuildIsStrictlyIncreasing | trademgen/basic/CategoricalAttributeLite.hpp:136-168 | the cumulatives strictly increase from above zero to the total mass |
| CategoricalAttributeLite.CategoricalAttributeLite.constructor | trademgen/basic/CategoricalAttributeLite.hpp:95-98 | the loop builds one running sum per positive mass |
| CategoricalAttributeLite.CategoricalAttributeLite.GetValue | trademgen/basic/CategoricalAttributeLite.hpp:41-56 | the loop finds the first value whose cumulative reaches p, or reports that p is out of range |
| CategoricalAttributeLite.CategoricalAttributeLite.CheckValue | trademgen/basic/CategoricalAttributeLite.hpp:61-68 | the loop decides membership in the value list |
| DemandStreamKey.ToStringIsInjective | trademgen/bom/DemandStreamKey.cpp:55-60 | with three-letter airports and dates of the years that the demand file knows the string determines the whole key |
| DemandStreamKey.ToStringParts | trademgen/bom/DemandStreamKey.cpp:55-60 | origin, destination, date and cabin are each at a place of their own |
| DemandStreamKey.ToStringCanCollide | trademgen/bom/DemandStreamKey.cpp:55-60 | without airports of equal length two keys can share a string |
| DemandCreation.CreateDemandCharacteristics | trademgen/command/DemandManager.cpp:229-306 | the day loop adds exactly one initialised stream for each active day of the range, in order, and as many means to the expected total |
| DemandCreation.CreateDay | trademgen/command/DemandManager.cpp:256-303 | one active day: two seeds, the stream, the expected total |
| DemandCreation.CreatedStreamsAnswerRow | trademgen/command/DemandManager.cpp:256-303 | the j-th stream of a row has the key of the row on its j-th day, engines from the seeds of draws 3 j and 3 j + 1, the maps and numbers of the row, and as total the whole number nearest to draw 3 j + 2 |
| DemandCreation.ConfigurationAnswersRow | trademgen/command/DemandManager.cpp:257-272 | origin, destination, day, cabin, first seed for date-times, second for characteristics; a seed is the whole part of a billion times its draw |
| DemandCreation.ActiveDaysAreTheActiveDays | trademgen/command/DemandManager.cpp:243-256 | the days are the active days of the range, each once, in increasing order |
| DemandCreation.WeeksOfActiveDays | trademgen/command/DemandManager.cpp:243-256 | w weeks hold w times the active weekdays of the row |
| DemandCreation.RowStreamsAreFound | trademgen/command/DemandManager.cpp:257-260 | the streams of a row have pairwise distinct strings and each is found under its own |
| Cancellations.GenerateCancellation | trademgen/command/DemandManager.cpp:489-582 | a cancellation is produced exactly if the draw is below 0.05 and the request is not after departure midnight; it lies between the two, divides the time left as the draw divides 0.05, and its class list looks up the first class of each segment |
| Cancellations.CancellationIsBetween | trademgen/command/DemandManager.cpp:506-529 | despite truncation, and for negative durations too, the cancellation is not before the request exactly if the request is not after departure midnight, and is then not after it either |
| Cancellations.CancellationFollowsDraw | trademgen/command/DemandManager.cpp:504-523 | the cancellation comes k whole seconds before departure midnight if and only if k x 0.05 <= u L < (k + 1) x 0.05, L the whole seconds left at the request |
| Cancellations.GenerateAndQueue | trademgen/service/TRADEMGEN_Service.cpp:749-808 | a produced cancellation is queued and counted, otherwise nothing changes |
| Cancellations.GenerateCancellations | trademgen/service/TRADEMGEN_Service.cpp:749-808 | after any history of calls on one service the queue has gained one cancellation for each call that produced one, has lost nothing, and the status has grown by their number; without a status before, there is one exactly if something was produced |

## Left out

- GenerateDemand.GenerateDemand: under the Poisson process it asks that the streams end wherever their engines stand, so that every later run ends as well as the first; a single run asks no more than that its own streams end, without which it does not end either.
- EventQueue.EventService.AddEvent: its contract allows any free stamp for a colliding event, because the stamp that the library picks is not shown in this repository.
- TrademgenService.TrademgenService.Reset: the library's own reset is modelled as emptying the queue; what it does to the progress statuses is not shown in this repository.
- DemandStream.DemandStream.GenerateNextRequest: masses that sum to less than one are excluded, because some draw is then out of range and the exception ends the program; origin, destination, cabin, party size and disutilities, which the request copies, are not carried.
- DemandStream.DemandStream.GenerateWTP: a uniform draw of exactly zero, for which the logarithm is infinite, gives an arbitrary value; the results on willingness to pay exclude it.
- ContinuousAttribute.ContinuousAttribute.GetValue: modelled for probabilities up to the largest cumulative of a distribution that is not empty; beyond it the source dereferences the end of the multimap.
- ContinuousAttributeLite.ContinuousAttributeLite.GetValue: an empty distribution, for which the source throws from `std::vector::at`, is excluded; the integer instance used for preferred departure times is the real one, cut towards zero.
- DemandCreation.CreateDemandCharacteristics: what the library does when two rows create the same key is not modelled.
- Rounding of floating-point numbers, and the ranges of the integer types.
- The statistical quality of the draws: random engines, the normal, exponential and uniform distributions themselves.
- The calendar: how the text of a date is spelled.
- The parsers of the demand file; their facts (inclusive last day, three-letter airports) appear as preconditions or in the row type.
- The older exact-match sampler of trademgen/basic/CategoricalAttribute.hpp, which the generator does not use.
- The built-in sample demand, which appears only as an instance, the database code, the Python wrapper, user interfaces, logging, display methods and the statistics accumulator of the batch.
