# ModelBudget in Dafny

ModelBudget is a gateway between application teams and LLM providers. Before it calls a provider it
reserves a worst-case amount from the team's budget; after the call it settles the true cost, refunds
the rest and writes one usage record. This project models that protocol and the parts it rests on,
and proves what they keep over whole runs.

| file | what it models |
|---|---|
| `Ledger.dfy` | the committed tables (budgets, idempotency rows, usage records) as one atomic object: Reserve, Settle, open a budget; the conservation law |
| `Idempotency.dfy` | how a row that already exists answers a later request |
| `Protocol.dfy`, `Runs.dfy` | any number of requests interleaved statement by statement, each able to abort or crash anywhere; what holds over every run |
| `Transactions.dfy` | the database code as written: sessions, guarded updates, the two transactions |
| `Decimals.dfy`, `Pricing.dfy` | the 28-digit decimal context, cost computation, ceiling to a micro-dollar |
| `Routing.dfy`, `RouteExecution.dfy` | backoff, the attempt log, candidates tried in order against live circuit breakers |
| `Breaker.dfy` | the shared circuit breaker, over traces with any number of runs in flight |
| `RateLimit.dfy` | the sliding-window script, against a count over the full history |
| `Reservation.dfy` | that the reservation covers what the route can cost |
| `Json.dfy`, `Fingerprint.dfy` | the canonical text behind a request's fingerprint |
| `PromptVersions.dfy` | constraints and triggers on prompt versions, and the audit link |
| `Gateway.dfy` | the request handler, in order, with other requests running at every await |
| `Sums.dfy`, `Wrappers.dfy` | sums over finite sets; Option, Result and NotBlank |

Money in the ledger is a whole number of micro-dollars, the quantum of the NUMERIC(12,6) columns;
`Pricing` proves that what the decimal code computes is exactly such a number. Time in the limiter is
whole microseconds; in the breaker it is a real-valued monotonic clock.

## Assumptions

- A guarded `UPDATE ... WHERE` acts on the latest committed row and keeps it locked to the end of its
  transaction; an insert that meets an uncommitted insert of the same unique key waits for it; an
  aborted transaction leaves no trace.
- An inserted reference keeps the row it names from being deleted until its transaction ends, and the
  foreign keys restrict deletion after that. Budget rows are not deleted.
- `allocated_amount` never changes after creation. Several active periods for one date are allowed by
  the schema and are modelled: the lookup raises.
- Time never goes back in the Redis clock and in the monotonic clock; the limiter's limit and window
  are fixed per key.
- Token counts and latencies fit their integer columns.
- The request hash is any function of the canonical text; the model proves the text injective and
  leaves the hash abstract.
- Between awaits a request's coroutine runs alone. At the awaits others may use the database, the
  limiter key and the breakers (`Gateway.Others`, `Gateway.OtherChecks`, `RouteExecution.Await`: their
  bodies do nothing, callers see only their contracts). That requests keep to what `Others` allows is
  `Runs.OthersLeaveOwnerAlone` and `Gateway.CommitsSpareOthers`.

## What the code does and its documentation does not say

- `app/services/routing.py` (lines 66-88) says the reservation covers one attempt. The handler multiplies by
  attempts and candidates (`app/api/chat_completions.py` lines 946-950), and `Reservation.ReservationCoversRoute`
  proves it covers every call. Rounding each call up on its own can still exceed it, by at most
  attempts - 1 micro-dollars; `Reservation.RoundingCanExceedReservation` reaches that bound.
- `docs/architecture.md` (lines 13 and 32) puts circuit-breaker coordination in Redis. The breaker is an object in
  one process (`app/services/routing.py` lines 440-482), and is modelled so.
- The breaker admits one trial per half-open episode, but a trial in flight is the only one exactly as
  long as nothing has reported since it was admitted (`Breaker.AloneUntilReport`). After any report,
  by a run admitted earlier, a second trial can join it (`Breaker.SecondTrialIsPossible`;
  `Breaker.TwoTrialsInFlight` is the shortest run).
- A trial that ends in a contract error, an unexpected exception or cancellation never reports, so the
  breaker stays half open until some other run does (`Breaker.HalfOpenEndsWithReport`).
- A request that loses the insert race gets the answer the replay lookup would have given exactly
  when the team has one active budget period, because Transaction 1 looks the period up first
  (`Runs.RaceAnswersAlike`).
- Waiting exactly `Retry-After` seconds is enough if and only if the eviction bound of the next check,
  rounded to 14 digits by `tostring`, has passed the oldest score (`RateLimit.WaitingRetryAfter`). It has
  when the whole seconds exceed the exact wait by more than the rounding. An unrounded bound would fail
  exactly for waits of whole seconds, since it is exclusive; with rounding such a wait may do and
  another may fail (`RateLimit.RoundingDecidesRetry`).
- The limiter counts distinct members. A caller that repeats one is not limited at all when the limit
  is above one (`RateLimit.RepeatedMemberIsUnlimited`); when the admitted members are distinct, or
  with a limit of one, requests are bounded.
- Settlement cannot fail on its refund or its claim, but it can on the foreign key to the prompt version:
  if the version is deleted between lookup and settlement, the client is told the settlement is
  unresolved and the row holds its reservation for ever (`Runs.SettlementCompletes`,
  `Runs.MissingVersionOrphans`). No command of the repository deletes a version; it takes direct SQL.
- The triggers on prompt versions do not protect the primary key. The template of a recorded version is
  the rendered one for ever if and only if it was when the record was inserted
  (`PromptVersions.RecordDecidesLink`). It was unless direct SQL gave the id to another row between
  lookup and record, as in `PromptVersions.ReusedIdBreaksLinkage`.

## Model

| member | source | states |
|---|---|---|
| `Ledger.RefundDue` | app/services/settlement.py:222-228 | refund plus capped cost is exactly the reservation |
| `Ledger.ReserveKeepsSound` | app/services/budget.py:54-78 | a reservation keeps allocation = remaining + pending reservations + capped settled costs for every budget, and the record-iff-settled law |
| `Ledger.RefundFits` | app/services/budget.py:94-106 | in a sound ledger the refund of a pending row never exceeds the allocation, so the guard of refund_budget holds |
| `Ledger.SettleKeepsSound` | app/services/settlement.py:255-323 | claim, refund and usage insert together keep the conservation law for every budget, the record-iff-settled law and the foreign key to prompt versions |
| `Ledger.SettleCharges` | app/services/settlement.py:222-240 | settling charges the true cost up to the reservation, returns the rest to the one budget of the row, and writes nothing but the row's status and the record |
| `Ledger.CoveringPeriods` | app/services/budget.py:40-51 | the periods selected for a day are the team's budgets with start <= day < end; several are selected exactly if two different ones cover the day |
| `Ledger.OpenKeepsSound` | scripts/bootstrap_team.py:81-87 | a new period that starts whole keeps the law for every budget |
| `Ledger.NextKeepsSound` | app/models/team_budget.py:32-43 | every ledger action keeps conservation, so 0 <= remaining <= allocation always |
| `Ledger.NextPreserves` | app/services/idempotency.py:317-336 | rows never disappear, keep hash, period and reservation, and are frozen with their usage record once settled |
| `Ledger.NeverOverspent` | app/services/budget.py:66-78 | what pending and settled requests hold against a budget never exceeds its allocation |
| `Protocol.StepKeepsInv` | app/api/chat_completions.py:455-569 | every step of every request, under any interleaving, abort or crash, keeps the ledger law and what each open transaction relies on |
| `Protocol.RefundNeverRefused` | app/services/settlement.py:231-240 | a settling request that reaches its refund is never refused, whatever others did meanwhile |
| `Protocol.ClaimNeverLost` | app/services/idempotency.py:317-336 | an owner that reaches settlement wins its claim and its usage record is the first; the insert fails exactly if the prompt version it names is gone |
| `Protocol.Commit1Refines` | app/api/chat_completions.py:480-508 | committing the values Transaction 1 wrote is exactly one atomic Reserve of the tables at that moment |
| `Protocol.Commit2Refines` | app/services/settlement.py:280-323 | committing the values Transaction 2 wrote is exactly one atomic Settle of the tables at that moment |
| `Runs.AlwaysSound` | app/services/settlement.py:222-323 | conservation in every committed state of every run |
| `Runs.AlwaysBalanced` | app/services/settlement.py:222-323 | the law in columns, for every run, state and budget: allocation is remaining plus, per row of that budget, what a pending one reserved and what a settled one cost up to its reservation |
| `Runs.AlwaysRecorded` | app/models/usage_record.py:100-159 | in every run every row has its budget, and a usage record exactly if settled, which agrees on success and names a version that exists |
| `Runs.StepRefines` | app/api/chat_completions.py:455-569 | only the two commits, opening a budget and adding or dropping a prompt version change the tables; every other step, including every rejection and abort, changes nothing |
| `Runs.RunRefinesLedger` | app/api/chat_completions.py:455-569 | a whole run of interleaved transactions, seen through its committed tables, is a run of the atomic ledger |
| `Runs.SettledRowsAreFrozen` | app/services/idempotency.py:271-336 | over any stretch of any run no row is lost and a settled row and its record never change again |
| `Runs.RequestsPersist` | app/services/idempotency.py:199-244 | ownership and execution, once reached, are never undone, and a finished request stays finished |
| `Runs.SingleOwner` | app/services/idempotency.py:224-268 | over a whole run at most one request ever owns a slot, however leases expire |
| `Runs.ReservedOnce` | app/api/chat_completions.py:480-508 | each slot is reserved by at most one commit of the run |
| `Runs.ExecutedOnce` | app/api/chat_completions.py:963-989 | only an owner calls the provider, and each slot is executed at most once |
| `Runs.SettledOnce` | app/services/idempotency.py:317-336 | each slot is settled by at most one commit of the run |
| `Runs.OthersLeaveOwnerAlone` | app/services/idempotency.py:271-336 | while an owner waits, the others keep the ledger sound and leave its pending row exactly as it was |
| `Runs.InsertNeedsOnePeriod` | app/api/chat_completions.py:466-478 | Transaction 1 finds no period exactly if no budget of the team covers the day, and raises exactly if two do |
| `Runs.AcquireCompletes` | app/api/chat_completions.py:480-508 | a new request whose day one budget covers owns its slot exactly if that budget can pay; then that budget has paid and the row is pending for 300 seconds; else it is told so and nothing changed |
| `Runs.ImpossibleEndings` | app/services/settlement.py:115-121 | no request of any run ends in an integrity error, a lost claim or a duplicate usage record |
| `Runs.SettlementCompletes` | app/services/settlement.py:280-323 | a resolved request whose budget row is free completes all four statements, as exactly one Settle, if and only if its prompt version still exists |
| `Runs.MissingVersionOrphans` | app/models/usage_record.py:156-159 | otherwise its usage insert fails, the tables stay as they were and its row is an orphan |
| `Runs.RowIsFree` | app/services/idempotency.py:317-336 | no other request ever locks an owner's idempotency row |
| `Runs.NoDeadlock` | app/services/budget.py:54-106 | a claim is never blocked; a statement blocked on a budget row waits for its holder, who can move; a blocked insert waits for the inserter of its key, who can move or waits for such a holder |
| `Runs.OrphanIsForever` | app/services/idempotency.py:22-35 | once its owner stops, a pending row holds its reservation for ever, lease or no lease |
| `Runs.ReplayIsStable` | app/api/chat_completions.py:392-447 | once a row is settled every later lookup, and every later insert while one budget covers the day, answers the stored snapshot or the stored error code for the same hash and a conflict for any other, and changes nothing |
| `Runs.PendingUntilExpiry` | app/api/chat_completions.py:430-445 | a row inserted at time t answers, while pending, every later lookup or insert of its key and hash that it is in progress exactly until t + 300, and that it has expired from then on; another hash is a conflict |
| `Runs.CommittedRow` | app/api/chat_completions.py:480-508 | the row Transaction 1 commits has the hash, the cost and 300 seconds from its insert, and the one budget that covered the day of its insert |
| `Runs.RaceAnswersAlike` | app/api/chat_completions.py:466-541 | the race path answers as the lookup would if and only if exactly one period is active |
| `Transactions.Session.GetCurrentBudgetPeriod` | app/services/budget.py:40-51 | the one budget of the team with start <= day < end, none exactly if there is none, and an error exactly if two different ones cover the day |
| `Transactions.Session.ReserveBudget` | app/services/budget.py:54-78 | succeeds exactly for a valid amount that remains, and then moves remaining_amount of that row alone by it |
| `Transactions.Session.RefundBudget` | app/services/budget.py:81-106 | succeeds exactly for a valid amount that keeps remaining within allocation, and moves that row alone |
| `Transactions.Session.AcquireIdempotencySlot` | app/services/idempotency.py:199-268 | acquires exactly a free key with one pending row; an existing row is reported as the lookup would answer it |
| `Transactions.Session.ClaimSettlement` | app/services/idempotency.py:271-336 | claims exactly a pending row, changing its status and nothing else |
| `Transactions.Session.SettleClaimed` | app/services/settlement.py:280-323 | in a sound database fails exactly when it would claim the row but the prompt version is gone; otherwise a claimed settlement is exactly the atomic Settle |
| `Transactions.ComputeRefundAmount` | app/services/settlement.py:222-228 | refund and capped flag for every pair of costs |
| `Transactions.RunTxn1` | app/api/chat_completions.py:455-543 | acquired is exactly one atomic Reserve: only a budget of the team that covers the day falls, by the cost, and the row expires after 300 seconds; every other ending leaves the tables alone: no period, several, too little in the covering budget, or the existing row's answer, each exactly when it is so |
| `Transactions.SettleSuccess` | app/services/settlement.py:255-323 | an input error exactly when a validator refuses, a foreign-key error exactly when a claimable row names a missing version; otherwise one Settle as COMPLETED or no change; soundness kept |
| `Transactions.SettleFailure` | app/services/settlement.py:326-391 | the same as FAILED, with the error code validated |
| `Transactions.CommitSettlement` | app/api/chat_completions.py:546-569 | commits a settlement, or rolls back on any error and leaves the tables as they were |
| `Pricing.CostIsExactCeiling` | app/services/pricing.py:184-214 | for all token counts the 28-digit half-even computation returns the rounded cost when it fits the column, and raises otherwise |
| `Pricing.EachRateToItsTokens` | app/services/pricing.py:184-214 | what is returned is the ceiling of prompt tokens times the input rate plus completion tokens times the output rate, written out; an error exactly when that is more than the column holds |
| `Pricing.MillionsOfPromptTokens` | app/services/pricing.py:198-207 | n million prompt tokens alone cost n input rates, whenever storable |
| `Pricing.MillionsOfCompletionTokens` | app/services/pricing.py:198-207 | n million completion tokens alone cost n output rates, whenever storable |
| `Pricing.CostIsMonotone` | app/services/pricing.py:184-214 | more tokens never cost less |
| `Pricing.CostSplits` | app/services/pricing.py:59-81 | splitting a call never makes it cheaper and costs at most one micro-dollar more |
| `Pricing.PricedAmountsAreValid` | app/services/settlement.py:144-159 | what pricing returns passes the settlement and reservation validators, and the budget validator unless zero |
| `Pricing.RefundIsValid` | app/services/budget.py:14-37 | the decimal difference reserved - actual is exact and passes the budget validator |
| `Pricing.BuildPricingCatalog` | app/services/pricing.py:104-126 | succeeds exactly without duplicate keys, and maps exactly the entries' keys, each to its entry |
| `Pricing.SelectMaxEstimatedCost` | app/services/pricing.py:295-319 | one of the estimates and no smaller than any; raises exactly for an empty list or a failing estimate |
| `Decimals.FixKeepsAtLeast` | app/services/pricing.py:184-214 | context rounding never takes a value below a power of ten it had reached |
| `Reservation.ReservationCoversRoute` | app/api/chat_completions.py:946-950 | however execute_route ends, the reservation covers the exact cost of every call within its bounds, and calls rounded one by one exceed it by at most attempts - 1 micro-dollars |
| `Reservation.CallsFitReservation` | app/services/routing.py:918-989 | no outcome of a route makes more adapter calls than attempts times candidates |
| `Reservation.BilledIsNearTotal` | app/services/pricing.py:59-81 | rounding n calls separately costs at least the rounded total and at most n - 1 micro-dollars more |
| `Reservation.SuccessIsNeverCapped` | app/services/settlement.py:222-228 | a successful call within its bounds is priced, at most the reservation, and charged in full |
| `Reservation.RoundingFits` | app/api/chat_completions.py:946-950 | n equal calls rounded one by one stay within what is reserved for them if and only if their rounding excesses sum to less than a micro-dollar |
| `Reservation.RoundingCanExceedReservation` | app/api/chat_completions.py:946-950 | three calls that reach the attempts - 1 bound |
| `Breaker.ClosedIsBelowThreshold` | app/services/routing.py:492-560 | in every reachable state CLOSED, counter below threshold and no opening time are equivalent |
| `Breaker.CounterIsHistory` | app/services/routing.py:544-560 | the counter is the number of failures reported outside HALF_OPEN since the last success |
| `Breaker.OpenedAtLastFailure` | app/services/routing.py:544-560 | the opening time is that of the last report, a failure |
| `Breaker.HalfOpenHasOneTrial` | app/services/routing.py:504-534 | HALF_OPEN means one admitted trial that has not reported, every check since refused |
| `Breaker.AloneUntilReport` | app/services/routing.py:504-560 | a trial in flight is the one HALF_OPEN waits for, with no other trial since, if and only if nothing has reported since it |
| `Breaker.SecondTrialIsPossible` | app/services/routing.py:504-560 | once anything has reported since, every legal trace can go on to a second trial in flight beside it |
| `Breaker.OneTrialInFlight` | app/services/routing.py:504-560 | in particular, without reports by earlier runs in HALF_OPEN a trial in flight is the only one |
| `Breaker.TwoTrialsInFlight` | app/services/routing.py:504-560 | a concrete run with two trials in flight |
| `Breaker.QuiescentBreakerRecovers` | app/services/routing.py:504-560 | with no run outstanding the breaker is not HALF_OPEN and refuses a check exactly within one cooldown of a last failed report |
| `Breaker.HalfOpenEndsWithReport` | app/services/routing.py:1009-1039 | HALF_OPEN lasts exactly as long as nothing reports, and refuses every check meanwhile |
| `Breaker.ReportsOnce` | app/services/routing.py:1009-1039 | in a legal trace no run reports twice |
| `Breaker.TrialsAreSpaced` | app/services/routing.py:504-560 | trials with no success between are at least one cooldown apart, whatever stragglers report |
| `Breaker.TrialsAreRare` | app/services/routing.py:504-560 | any stretch of length T without a success has at most 1 + floor(T / cooldown) trials |
| `Breaker.CircuitBreaker.ShouldAllow` | app/services/routing.py:504-534 | admits exactly when closed or cooled down, and its fields stay what the history determines |
| `Breaker.CircuitBreaker.RecordSuccess` | app/services/routing.py:536-542 | a success report keeps the fields what the history determines |
| `Breaker.CircuitBreaker.RecordFailure` | app/services/routing.py:544-560 | a failure report in any state keeps the fields what the history determines |
| `Routing.BackoffIsBelowDoubling` | app/services/routing.py:338-388 | n attempts sleep at most base * (2^(n-1) - 1) in all, with any jitter |
| `Routing.BackoffIsBelowCap` | app/services/routing.py:338-388 | ... and at most (n-1) * max_backoff |
| `Routing.SleepsGrow` | app/services/routing.py:338-388 | without jitter a later sleep is never shorter |
| `Routing.SleepIsCappedPower` | app/services/routing.py:338-388 | without jitter the sleep after attempt n is base * 2^(n-1), or the cap if that is more |
| `Routing.SleepsDouble` | app/services/routing.py:338-388 | over any run of sleeps the first is the base and each next one twice the one before, up to the cap |
| `Routing.JitterOnlyShortens` | app/services/routing.py:338-388 | with jitter the sleep is the draw, between zero and the sleep without |
| `Routing.BuildRoute` | app/services/routing.py:675-737 | accepts exactly 1 to 10 distinct candidates, unchanged |
| `Routing.UndecidedShape` | app/services/routing.py:918-1047 | while no candidate decided, the log is one block per tried candidate: one skip numbered 0, or attempts 1..k with k <= max_attempts, all but the last timeouts or retryable errors |
| `Routing.UndecidedLog` | app/services/routing.py:1145-1209 | ... without success, and adapter calls are exactly the records not skipped |
| `Routing.SuccessfulShape` | app/services/routing.py:918-1047 | on success every block has its shape |
| `Routing.SuccessfulLog` | app/services/routing.py:1145-1209 | success appears once and last, and adapter calls are exactly the records not skipped |
| `Routing.AllSkippedMeansNoCall` | app/api/chat_completions.py:994-1010 | on total failure "all skipped" holds exactly when no adapter was called |
| `Routing.TransientUnlessRejected` | app/services/routing.py:831-859 | a total failure is definitive exactly when the last candidate was called and rejected the request |
| `Routing.EndingTells` | app/services/routing.py:918-1047 | how a candidate run ends in its replies alone: it goes on after timeouts and retryable errors only, and its last reply is the answer, an exception or a failure |
| `Routing.BlockTells` | app/services/routing.py:918-1047 | every record of a run is numbered by its attempt and has the failure its reply stands for |
| `RouteExecution.ValidateRouteAgainstRegistry` | app/services/routing.py:740-756 | accepts exactly supported routes; the first unsupported candidate decides the error |
| `RouteExecution.RouteRun.Attempt` | app/services/routing.py:930-1047 | one record and one call per attempt, none recorded for what propagates, and whether the run ends |
| `RouteExecution.RouteRun.RunCandidate` | app/services/routing.py:898-1047 | stops at the first attempt that must stop, leaves exactly its block of records, sleeps once between attempts and never outside the backoff domain |
| `RouteExecution.RouteRun.TryGuarded` | app/services/routing.py:1145-1181 | skipped exactly when its breaker refused its fresh run, by a new ask; a run that ends reports once, later, success exactly if it answered; one an exception escaped from stays outstanding |
| `RouteExecution.RunsDiffer` | app/services/routing.py:1145-1181 | no two consultations of one breaker share a run |
| `RouteExecution.RouteRun.ExecuteRoute` | app/services/routing.py:1091-1209 | for every route, with breakers shared and moving meanwhile, log, calls and outcome agree with the replies, and each tried candidate made its own consultation and report, by events new since the call and runs all different |
| `RouteExecution.OutcomeTells` | app/services/routing.py:1091-1209 | an outcome in the replies alone: which candidates were skipped, exhausted or rejected, that success is the last reply with the candidate's own name and sane counts, and which exception propagates |
| `RouteExecution.ConsultationTells` | app/services/routing.py:1145-1181 | every candidate with a breaker left one ask in its history, and a success there exactly for an answer, a failure for a failure, nothing for an exception |
| `RateLimit.OldestScore` | app/services/rate_limit.py:120-126 | a score in the set and no larger than any |
| `RateLimit.DecidesAsFullLog` | app/services/rate_limit.py:98-110 | lazy eviction and the time to live decide exactly as a count of distinct members over the full history |
| `RateLimit.NeverOverLimit` | app/services/rate_limit.py:98-116 | distinct members admitted in any closed interval of length window - eps never exceed the limit |
| `RateLimit.RequestsNeverOverLimit` | app/services/rate_limit.py:98-116 | that bounds requests when those admitted in the interval have distinct members |
| `RateLimit.LimitOneCountsRequests` | app/services/rate_limit.py:98-116 | with limit one requests are bounded whatever their members |
| `RateLimit.RepeatedMemberIsUnlimited` | app/services/rate_limit.py:110-110 | with any larger limit, any number of requests that repeat one member is admitted at once |
| `RateLimit.StoreIsBounded` | app/services/rate_limit.py:106-120 | the set never holds more than the limit, and exactly the limit at a rejection |
| `RateLimit.RetryHintIsTight` | app/services/rate_limit.py:118-134 | after a rejection, with nothing admitted since, a check is admitted exactly when its rounded bound has passed the oldest score; so rejected up to oldest + window and admitted after it, give or take the rounding |
| `RateLimit.WaitingRetryAfter` | app/services/rate_limit.py:128-134 | waiting Retry-After seconds suffices if and only if the bound of the second check, as rounded, has passed the oldest score; whenever the slack exceeds the rounding; unrounded, exactly when the wait is not whole seconds |
| `RateLimit.RoundingDecidesRetry` | app/services/rate_limit.py:104-104 | for every rounding, whole and other waits succeed or fail by the rounding alone |
| `RateLimit.TeamKey.Run` | app/services/rate_limit.py:88-138 | what the script keeps, adds and expires, and every field of its answer; the retry hint is the least whole number of seconds that covers the wait |
| `RateLimit.TeamKey.Check` | app/services/rate_limit.py:224-285 | admitted exactly when fewer than limit distinct members are in the window of the whole history; a rejection reports exactly the limit |
| `Json.ObjectReads` | app/services/idempotency.py:170-182 | the text of any flat object, with escapes and surrogate pairs, reads back as exactly its members |
| `Json.CharReads` | app/services/idempotency.py:170-182 | every Unicode scalar value is escaped so that it reads back |
| `Json.SortedIsUnique` | app/services/idempotency.py:170-182 | there is one sorted order of given members |
| `Json.CanonicalTextIdentifies` | app/services/idempotency.py:159-182 | two dictionaries have the same text if and only if they have the same entries, in any insertion order |
| `Json.TextIsAscii` | app/services/idempotency.py:173-179 | whatever the values hold, the text is printable ASCII |
| `Fingerprint.UuidReads` | app/api/chat_completions.py:723-733 | the canonical text of every UUID denotes it |
| `Fingerprint.UuidTextIsCanonical` | app/api/chat_completions.py:723-733 | the text of a UUID is 36 characters, lower-case digits with hyphens after 8, 12, 16 and 20 of them |
| `Fingerprint.SpellingsCoincide` | app/api/chat_completions.py:723-733 | braces before and after any accepted prefix, hyphens anywhere and any case, in any combination, denote the same UUID |
| `Fingerprint.TextIdentifiesRequest` | app/api/chat_completions.py:759-763 | two requests have the same text if and only if model, prompt, max_tokens and version agree |
| `Fingerprint.WithoutVersionThreeKeys` | app/api/chat_completions.py:759-761 | without a version the text is the three-key object |
| `Fingerprint.WithVersionFourKeys` | app/api/chat_completions.py:759-763 | with a version its canonical text is a fourth key, last in order |
| `Fingerprint.PlainRequestText` | app/services/idempotency.py:173-179 | the text of a request in plain characters, as it stands |
| `PromptVersions.VersionTable.Update` | alembic/versions/509346923a9f_add_prompt_versions.py:51-100 | an update succeeds exactly if it changes no content field, moves draft to approved or approved to retired if at all, and meets the CHECKs; which error otherwise |
| `PromptVersions.VersionTable.Approve` | scripts/manage_prompt_versions.py:102-124 | approves exactly drafts |
| `PromptVersions.VersionTable.Retire` | scripts/manage_prompt_versions.py:127-149 | retires exactly approved versions whose approval is not in the future |
| `PromptVersions.RecordDecidesLink` | app/models/usage_record.py:156-159 | for every history, the named version has the rendered template at any later time if and only if it had it when the record was inserted; the whole link, once it holds there, holds for ever |
| `PromptVersions.AuditLinkage` | app/models/usage_record.py:156-159 | when no row was given the id between lookup and record, the version exists, is approved or retired, was approved at lookup and still has the template that was rendered, after any later changes |
| `PromptVersions.LookUpAndRecordOf` | app/api/chat_completions.py:876-906 | every usage record was preceded by its insert and that by its lookup of an approved version |
| `PromptVersions.ReusedIdBreaksLinkage` | alembic/versions/509346923a9f_add_prompt_versions.py:51-100 | a run, by direct SQL, that reuses an id in between and breaks the link |
| `PromptVersions.VersionsMoveForward` | alembic/versions/509346923a9f_add_prompt_versions.py:78-100 | while no row is given its id, a version's status only advances and its content never changes |
| `Gateway.SettleAndResolve` | app/api/chat_completions.py:597-654 | for a valid settlement of a pending row of a sound database exactly one Settle, or unresolved and no change if and only if the database fails or the prompt version is gone; a lost claim is answered from the stored row |
| `Gateway.DecideSuccess` | app/api/chat_completions.py:1088-1152 | the exact ceiling cost with its response and record, or the failure code and charge when it is not storable or no response can be built |
| `Gateway.SuccessTells` | app/api/chat_completions.py:1088-1152 | an answer is charged its written-out price rounded up, with its own prompt and completion counts in the record, whether or not a response can be built; nothing if unstorable |
| `Gateway.DecideFailure` | app/api/chat_completions.py:994-1043 | 502 exactly when the last permitted reply was an outright rejection, otherwise 503, saying whether nothing was sent; CIRCUIT_OPEN_NO_ATTEMPT exactly without a call and RETRIES_EXHAUSTED_COST_UNKNOWN otherwise; no cost |
| `Gateway.Execute` | app/api/chat_completions.py:986-1070 | for every number of calls the breaker and the retry policy allow, exactly the decision those replies call for; none exactly after cancellation |
| `Gateway.DecisionFollowsReply` | app/api/chat_completions.py:986-1070 | code, cost and reply for each kind of last reply; nothing is settled exactly after a cancellation |
| `Gateway.DecisionsAreSettleable` | app/services/settlement.py:144-211 | whatever is decided passes every settlement validator |
| `Gateway.SettleDecision` | app/api/chat_completions.py:1155-1180 | a decision about the request's own pending row is committed as exactly that Settle, or reported unresolved with no change exactly if the database fails or the version is gone |
| `Gateway.ExecuteAndSettle` | app/api/chat_completions.py:986-1180 | from reservation to settlement, with others in between: cancelled or unresolved with its row as reserved, or exactly the settlement decided, whether or not the client waited for it |
| `Gateway.PlanOutcomeIs` | app/api/chat_completions.py:849-959 | the chain of checks comes to one condition, and the amount reserved to the cost of every permitted attempt |
| `Gateway.PlanRequest` | app/api/chat_completions.py:849-959 | a plan is for the model asked for, or the default one, known and supported; it carries the count of the text that is sent: of the approved version's template rendered over the prompt, or of the prompt itself without a version |
| `Gateway.RefusalTells` | app/api/chat_completions.py:849-959 | which refusal comes first, in the request, catalog, registry, version, text, count and worst price; and that every other request is planned at that price |
| `Gateway.PlansAreExecutable` | app/api/chat_completions.py:946-959 | every plan is priced exactly, on a supported route, with a storable reservation; every other outcome is a refusal |
| `Gateway.CheckLimiter` | app/api/chat_completions.py:799-845 | admits exactly below the limit over the full history, recorded; fails closed and unrecorded when Redis is down |
| `Gateway.ReserveFor` | app/api/chat_completions.py:963-972 | the one budget covering the day pays, or a refusal and no change: no budget period exactly if none covers the day, not enough exactly if the one that does has less than the plan reserves; no change if the database fails |
| `Gateway.ReplyTellsOutcome` | app/api/chat_completions.py:662-1180 | a refusal means nothing was reserved; 503 and 502 tell whether anything was sent and whether it was rejected; a reservation without settlement is pending and the client cancelled or was told so, each exactly when; success means a COMPLETED row with that snapshot; other failures cost nothing unless the response could not be built |
| `Gateway.ReplyFollowsProvider` | app/api/chat_completions.py:986-1180 | when both transactions run and the version exists, reply, status, cost and counts for every kind of last reply: the answer charged at its written-out price, every other ending free |
| `Gateway.NewRequestTells` | app/api/chat_completions.py:799-972 | the limiter decides first, closed when unreachable; within it a request is reserved for exactly if it can be planned; every refusal leaves the tables alone |
| `Gateway.CommitsSpareOthers` | app/api/chat_completions.py:455-569 | a request's own two commits keep the ledger sound and every other request's row as it was |
| `Gateway.SuccessChargesTrueCost` | app/api/chat_completions.py:1155-1170 | a success within its bounds is charged its exact rounded cost and the rest of the reservation is back in the budget |
| `Gateway.CreateChatCompletion` | app/api/chat_completions.py:662-1180 | an existing key is answered from its row with limiter and tables untouched; otherwise the first refusal in order with nothing committed, or one Reserve and at most one Settle, exactly as the tables, the calls and the fate of each transaction determine, whatever others do meanwhile |

## Left out

- Transport, authentication and text: FastAPI, pydantic, headers, HTTP status and message text, API keys, Argon2, HMAC and admin authentication; a request starts structurally valid and authenticated.
- SHA-256 and `string.Template`: the hash and the render function are arbitrary functions.
- The OpenAI adapter: an attempt is any of eight replies; `timeout_ms` and the prompt argument of execute_route have no part in what is proved.
- How latency is measured (the record holds any non-negative number), logging, metrics, tracing, the dashboard, deployment and check scripts.
- Recovery of expired pending rows: the repository does not implement it.
- String validators: provider and key formats, and Unicode whitespace; NotBlank and the settlement identifiers treat spaces only. A blank model is any text the process calls blank.
- Decimals: subnormal results, which no cost can reach, and the trailing zeros of a quotient are not modelled.
- RateLimit.Rounding: the 14-digit tostring is any monotone rounding by at most eps, and scores carry no binary floating-point error.
- RateLimit.TeamKey: fixed limit and window for one key; settings that change between checks are not modelled.
- Json.CanonicalTextIdentifies: flat objects of null, integer and string values, which is all the handler builds; floats, nesting and lone surrogates are not modelled.
- Fingerprint.SpellingsCoincide: digits are hexadecimal digits; the underscores, sign and prefix that Python's int also accepts inside 32 characters are not modelled.
- RouteExecution.RouteRun.ExecuteRoute: the adapter's replies are fixed in advance for each attempt, so they do not depend on the clock or on what other requests do.
- Gateway.CreateChatCompletion: the replay lookup is its first step, after structural validation and authentication; database failure and cancellation are modelled in its two transactions and in the provider call, not at the read-only awaits before them, where nothing has been written.
