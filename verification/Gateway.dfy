/**
The request handler, in the order it does things, with other requests running at every await.
*/
module Gateway {
  import opened Wrappers
  import opened Ledger
  import opened Idempotency
  import opened Transactions
  import opened Routing
  import opened RouteExecution
  import opened Breaker
  import Decimals
  import Fingerprint
  import Pricing
  import PromptVersions
  import RateLimit
  import Reservation

  const MAX_PROMPT_CHARS: nat := 20_000
  const CIRCUIT_OPEN: string := "CIRCUIT_OPEN_NO_ATTEMPT"
  const EXHAUSTED: string := "RETRIES_EXHAUSTED_COST_UNKNOWN"
  const INTERNAL: string := "INTERNAL_ERROR"
  const COST_FAILED: string := "COST_CALCULATION_FAILED"
  const RESPONSE_FAILED: string := "RESPONSE_CONSTRUCTION_FAILED"

  /** A structurally valid, authenticated request. */
  datatype ChatRequest = ChatRequest(slot: Slot, payload: Fingerprint.Payload)

  datatype CountOutcome = Counted(tokens: nat) | CountUnavailable | CountRejected | CountRaised

  /** What the process was configured with. */
  datatype Deps = Deps(
    catalog: map<(string, string), Pricing.ModelPricing>,
    registry: map<string, Registration>,
    defaultModel: Option<string>,
    policy: RetryPolicy,
    hash: string -> string,
    render: PromptVersions.Render,
    isBlank: string -> bool)

  /**
  What becomes of a transaction the handler awaits in a worker thread: it runs; the database fails
  it, which rolls it back; or the request is cancelled meanwhile and the thread finishes alone.
  */
  datatype DbFate = Healthy | Fails | CancelledMeanwhile

  /** What the request meets outside the process. */
  datatype Surroundings = Surroundings(
    lookedUpAt: int, insertedAt: int, today: int,
    limiterUp: bool, limiterNow: int, member: string,
    versions: map<nat, PromptVersions.Version>,
    count: (string, string) -> CountOutcome,
    reservationDb: DbFate, settlementDb: DbFate,
    reply: World, draws: Draws, latencyMs: nat,
    response: (CompletionResult, nat) -> Option<string>)

  datatype Reply =
    | Answered(answer: Answer)
    | LimiterUnavailable
    | RateLimited(limit: RateLimit.CheckResult)
    | NoProvider
    | UnknownModel
    | PlanningRaised
    | VersionNotAvailable
    | InvalidRequest
    | CountingUnavailable
    | CountingRejected
    | CountingRaised
    | NoBudgetPeriod
    | NotEnoughBudget
    | ReservationRaised
    | Succeeded(snapshot: string)
    | ProviderUnavailable(nothingSent: bool)
    | ProviderRejected
    | InternalError
    | SettlementUnresolved
    | RequestCancelled

  /** Replies given to a request that has reserved and executed nothing. */
  predicate Refusal(r: Reply) {
    match r
    case Succeeded(_) => false
    case ProviderUnavailable(_) => false
    case ProviderRejected => false
    case InternalError => false
    case SettlementUnresolved => false
    case RequestCancelled => false
    case _ => true
  }

  /** What an admitted request is going to do. */
  datatype Plan = Plan(pricing: Pricing.ModelPricing, candidate: Candidate, version: Option<nat>, promptTokens: nat, reserved: nat)

  /** Its price is computed exactly and its model fits a usage record. */
  predicate Executable(plan: Plan) {
    Pricing.PricesExactly(plan.pricing) && plan.candidate.provider == "openai" && ValidIdentifier(plan.candidate.model, 128)
  }

  /** ... as it does for every entry of a proper catalog. */
  predicate ProperCatalog(catalog: map<(string, string), Pricing.ModelPricing>) {
    forall k | k in catalog :: Pricing.PricesExactly(catalog[k]) && ValidIdentifier(k.1, 128)
  }

  // ---------------------------------------------------------------- other requests

  /**
  What a request may rely on across an await: the ledger stays sound, only moves as the ledger
  may, and nobody else touches the pending row this request owns. Runs.OthersLeaveOwnerAlone
  proves this of every run.
  */
  method Others(db: Database, ghost own: Option<Slot>)
    requires Sound(db.tables)
    modifies db
    ensures Sound(db.tables) && Preserves(old(db.tables), db.tables)
    ensures own.Some? && own.value in old(db.tables).keys && old(db.tables).keys[own.value].status.Pending? ==>
              db.tables.keys[own.value] == old(db.tables).keys[own.value]
  {
    PreservesItself(db.tables);
  }

  lemma PreservesItself(t: Tables)
    ensures Preserves(t, t)
  {
  }

  /** Others' checks of the team's limiter key, before an instant if one is given. */
  method OtherChecks(key: RateLimit.TeamKey, ghost until: Option<int>)
    requires key.Valid() && (until.Some? && key.history != [] ==> RateLimit.LastAt(key.history) <= until.value)
    modifies key
    ensures key.Valid() && old(key.history) <= key.history
    ensures until.Some? && key.history != [] ==> RateLimit.LastAt(key.history) <= until.value
  {
  }

  // ---------------------------------------------------------------- settlement

  datatype Resolution = Proceed | Authoritative(answer: Answer) | Unresolved

  /**
  A lost claim is answered from the stored row, never from what this request computed; a settlement
  that raised is reported as unresolved, never as a refund.
  */
  method SettleAndResolve(db: Database, slot: Slot, status: Status, cost: nat, version: Option<nat>, details: Details, fate: DbFate)
    returns (r: Resolution)
    requires !status.Pending?
    modifies db
    ensures Sound(old(db.tables)) ==> Sound(db.tables)
    ensures !r.Proceed? ==> db.tables == old(db.tables)
    ensures r.Authoritative? ==> slot in db.tables.keys && !db.tables.keys[slot].status.Pending?
                                 && r.answer == match db.tables.keys[slot].status
                                                case Completed(snapshot) => Replay(snapshot)
                                                case Failed(errorCode) => PreviouslyFailed(errorCode)
    ensures Sound(old(db.tables)) && Claimable(old(db.tables), slot) && ValidSettlement(status, cost, details) ==>
              var usage := Usage(status.Completed?, cost, version, details);
              if fate.Fails? || !VersionStands(old(db.tables), usage) then r.Unresolved? else
                && r.Proceed?
                && CanSettle(old(db.tables), slot, status, usage)
                && db.tables == Settle(old(db.tables), slot, status, usage)
  {
    if fate.Fails? {
      return Unresolved;
    }
    var settled;
    if status.Completed? {
      settled := SettleSuccess(db, slot, cost, status.snapshot, version, details);
    } else {
      settled := SettleFailure(db, slot, cost, status.errorCode, version, details);
    }
    if settled.Err? {
      return Unresolved;
    }
    if settled.value.claimed {
      return Proceed;
    }
    if slot in db.tables.keys && db.tables.keys[slot].status.Completed? {
      return Authoritative(Replay(db.tables.keys[slot].status.snapshot));
    }
    if slot in db.tables.keys && db.tables.keys[slot].status.Failed? {
      return Authoritative(PreviouslyFailed(db.tables.keys[slot].status.errorCode));
    }
    return Unresolved;
  }

  function Resolved(res: Resolution, normal: Reply): Reply {
    match res
    case Proceed => normal
    case Authoritative(answer) => Answered(answer)
    case Unresolved => SettlementUnresolved
  }

  /** One settlement this request committed. */
  datatype Settlement = Settlement(before: Tables, status: Status, usage: Usage, after: Tables)

  ghost predicate SettledOne(s: Settlement, slot: Slot) {
    CanSettle(s.before, slot, s.status, s.usage) && s.after == Settle(s.before, slot, s.status, s.usage)
  }

  // ---------------------------------------------------------------- execution

  /** What to settle with and what to reply. */
  datatype Decision = Decision(status: Status, cost: nat, details: Details, reply: Reply)

  function Failing(code: string, cost: nat, details: Details, reply: Reply): Decision {
    Decision(Status.Failed(code), cost, details, reply)
  }

  /** The usage record of a request without an answer, and with one. */
  function NoAnswer(plan: Plan, latencyMs: nat): Details {
    Details("openai", plan.candidate.model, None, None, 0, 0, latencyMs, false)
  }

  function AnswerOf(plan: Plan, result: CompletionResult, latencyMs: nat): Details {
    var c := plan.candidate;
    Details(c.provider, c.model, Some(c.provider), Some(c.model), result.promptTokens, result.completionTokens, latencyMs, false)
  }

  /** A successful answer settles its exact cost, unless that is not storable or no response can be built from it. */
  function SuccessDecision(plan: Plan, result: CompletionResult, w: Surroundings): Decision
    requires Pricing.PricesExactly(plan.pricing) && result.promptTokens >= 0 && result.completionTokens >= 0
  {
    var exact := Pricing.Cost(plan.pricing, result.promptTokens, result.completionTokens);
    var details := AnswerOf(plan, result, w.latencyMs);
    if exact > MAX_AMOUNT then Failing(COST_FAILED, 0, NoAnswer(plan, w.latencyMs), InternalError)
    else match w.response(result, exact)
      case None => Failing(RESPONSE_FAILED, exact, details, InternalError)
      case Some(snapshot) => Decision(Status.Completed(snapshot), exact, details, Succeeded(snapshot))
  }

  /**
  What a successful answer leads to, its price x written out: that price rounded up, with the
  answer's own counts in the record, whether or not a response can be built; nothing if unstorable.
  */
  lemma SuccessTells(plan: Plan, result: CompletionResult, w: Surroundings, x: nat)
    requires Pricing.PricesExactly(plan.pricing) && result.promptTokens >= 0 && result.completionTokens >= 0
    requires x == result.promptTokens * plan.pricing.inputRate.coeff * Decimals.Pow10(16 + plan.pricing.inputRate.exp)
                  + result.completionTokens * plan.pricing.outputRate.coeff * Decimals.Pow10(16 + plan.pricing.outputRate.exp)
    ensures var d := SuccessDecision(plan, result, w);
            if x > 999_999_999_999 * Decimals.Pow10(16) then
              d.status == Status.Failed("COST_CALCULATION_FAILED") && d.cost == 0 && d.reply == InternalError
            else
              && (d.cost - 1) * Decimals.Pow10(16) < x <= d.cost * Decimals.Pow10(16)
              && d.details == Details(plan.candidate.provider, plan.candidate.model, Some(plan.candidate.provider), Some(plan.candidate.model),
                                      result.promptTokens, result.completionTokens, w.latencyMs, false)
              && match w.response(result, d.cost)
                 case Some(snapshot) => d.status == Status.Completed(snapshot) && d.reply == Succeeded(snapshot)
                 case None => d.status == Status.Failed("RESPONSE_CONSTRUCTION_FAILED") && d.reply == InternalError
  {
    Pricing.CostRoundsUp(plan.pricing, result.promptTokens, result.completionTokens, x);
  }

  /** What k adapter calls with these replies must lead to; a cancelled request settles nothing. */
  function DecisionOf(plan: Plan, w: Surroundings, k: nat): Option<Decision>
    requires Pricing.PricesExactly(plan.pricing)
  {
    if k == 0 then Some(Failing(CIRCUIT_OPEN, 0, NoAnswer(plan, 0), ProviderUnavailable(true)))
    else match EndingOf(plan.candidate, w.reply(0, k))
      case Finished(result) => Some(SuccessDecision(plan, result, w))
      case Raised(cause) =>
        if cause.Cancellation? then None else Some(Failing(INTERNAL, 0, NoAnswer(plan, 0), InternalError))
      case Exhausted =>
        Some(Failing(EXHAUSTED, 0, NoAnswer(plan, 0),
                     if Retries(w.reply(0, k)) then ProviderUnavailable(false) else ProviderRejected))
  }

  /** k calls are what the retry policy and the breaker allow. */
  ghost predicate CallsFit(deps: Deps, plan: Plan, w: Surroundings, k: nat) {
    if k == 0 then MaySkip(deps.registry, plan.candidate) else Stops(deps.policy, ReplyOf(w.reply, 0), k)
  }

  method DecideSuccess(plan: Plan, primary: Candidate, final: Candidate, fallbackUsed: bool, result: CompletionResult, w: Surroundings)
    returns (d: Decision)
    requires Pricing.PricesExactly(plan.pricing) && result.promptTokens >= 0 && result.completionTokens >= 0
    requires primary == final == plan.candidate && !fallbackUsed
    ensures d == SuccessDecision(plan, result, w)
  {
    Pricing.CostIsExactCeiling(plan.pricing, result.promptTokens, result.completionTokens);
    var actual := Pricing.CalculateCost(plan.pricing, result.promptTokens, result.completionTokens);
    if actual.Err? {
      return Failing(COST_FAILED, 0, NoAnswer(plan, w.latencyMs), InternalError);
    }
    var cost := actual.value.coeff;
    var details := Details(primary.provider, primary.model, Some(final.provider), Some(final.model),
                           result.promptTokens, result.completionTokens, w.latencyMs, fallbackUsed);
    var snapshot := w.response(result, cost);
    if snapshot.None? {
      return Failing(RESPONSE_FAILED, cost, details, InternalError);
    }
    return Decision(Status.Completed(snapshot.value), cost, details, Succeeded(snapshot.value));
  }

  /** Reads code and reply off the attempt log: 503 for a transient failure, 502 for a rejection. */
  method DecideFailure(plan: Plan, policy: RetryPolicy, w: Surroundings, attempts: seq<AttemptRecord>, ghost k: nat) returns (d: Decision)
    requires Pricing.PricesExactly(plan.pricing)
    requires Undecided(policy, [plan.candidate], w.reply, [k]) && attempts == Log([plan.candidate], w.reply, [k])
    ensures Some(d) == DecisionOf(plan, w, k)
    ensures d.reply.ProviderRejected? <==> k > 0 && (w.reply(0, k).NonRetryableError? || w.reply(0, k).BareProviderError?)
    ensures !d.reply.ProviderRejected? ==> d.reply == ProviderUnavailable(k == 0)
    ensures d.status == Status.Failed(if k == 0 then "CIRCUIT_OPEN_NO_ATTEMPT" else "RETRIES_EXHAUSTED_COST_UNKNOWN")
    ensures d.cost == 0 && d.details == Details("openai", plan.candidate.model, None, None, 0, 0, 0, false)
  {
    AllSkippedMeansNoCall(policy, [plan.candidate], w.reply, [k]);
    TransientUnlessRejected(policy, [plan.candidate], w.reply, [k]);
    OneCandidate(plan, policy, w, k);
    var allSkipped := attempts != [] && forall a | a in attempts :: a.outcome.SKIPPED?;
    var code := if allSkipped then CIRCUIT_OPEN else EXHAUSTED;
    return Failing(code, 0, NoAnswer(plan, 0), if IsTransientFailure(attempts) then ProviderUnavailable(allSkipped) else ProviderRejected);
  }

  lemma OneCandidate(plan: Plan, policy: RetryPolicy, w: Surroundings, k: nat)
    ensures Calls([k]) == k
    ensures Undecided(policy, [plan.candidate], w.reply, [k]) ==> Routing.Failed(policy, plan.candidate, w.reply, 0, k)
  {
    assert [k][..0] == [];
    assert Undecided(policy, [plan.candidate], w.reply, [k]) ==> Routing.Failed(policy, [plan.candidate][0], w.reply, 0, [k][0]);
  }

  /** A route of one candidate got some number of calls, and they fit. */
  lemma OneRun(deps: Deps, plan: Plan, w: Surroundings, tried: seq<nat>, outcome: RouteOutcome)
    requires |tried| <= 1 && OutcomeIs(deps.policy, [plan.candidate], w.reply, tried, outcome) && !outcome.InvalidRoute?
    requires AllCalled(deps.registry, [plan.candidate], tried)
    ensures |tried| == 1 && tried == [tried[0]] && CallsFit(deps, plan, w, tried[0])
    ensures outcome.AllCandidatesFailed? ==> Undecided(deps.policy, [plan.candidate], w.reply, [tried[0]])
    ensures outcome.RouteSuccess? ==> outcome.primary == outcome.final == plan.candidate && !outcome.fallbackUsed
    ensures outcome.RouteSuccess? ==> tried[0] > 0 && EndingOf(plan.candidate, w.reply(0, tried[0])) == Finished(outcome.result)
    ensures outcome.Propagated? ==> tried[0] > 0 && EndingOf(plan.candidate, w.reply(0, tried[0])) == Raised(outcome.cause)
  {
    if outcome.AllCandidatesFailed? {
      assert Routing.Failed(deps.policy, [plan.candidate][0], w.reply, 0, tried[0]);
    }
  }

  /** Runs the route with no transaction open, while other requests use the database, and decides what to settle. */
  method Execute(clock: Clock, deps: Deps, plan: Plan, w: Surroundings) returns (d: Option<Decision>, ghost calls: nat)
    requires ValidPolicy(deps.policy) && Pricing.PricesExactly(plan.pricing) && Supported(deps.registry, [plan.candidate])
    requires AllWorking(clock, deps.registry)
    modifies clock, Breakers(deps.registry)
    ensures AllWorking(clock, deps.registry)
    ensures CallsFit(deps, plan, w, calls) && d == DecisionOf(plan, w, calls)
  {
    var run := new RouteRun();
    var outcome, tried;
    ghost var mine, escaped;
    outcome, tried, mine, escaped := run.ExecuteRoute(deps.registry, [plan.candidate], deps.policy, clock, w.reply, w.draws);
    OneRun(deps, plan, w, tried, outcome);
    calls := tried[0];
    if outcome.AllCandidatesFailed? {
      var failure := DecideFailure(plan, deps.policy, w, run.attempts, calls);
      return Some(failure), calls;
    }
    if outcome.RouteSuccess? {
      var success := DecideSuccess(plan, outcome.primary, outcome.final, outcome.fallbackUsed, outcome.result, w);
      return Some(success), calls;
    }
    if outcome == Propagated(Cancellation) {
      return None, calls;
    }
    return Some(Failing(INTERNAL, 0, NoAnswer(plan, 0), InternalError)), calls;
  }

  predicate Settleable(d: Decision) {
    ValidSettlement(d.status, d.cost, d.details)
  }

  /** Whatever is decided passes every settlement validator. */
  lemma DecisionsAreSettleable(plan: Plan, w: Surroundings, k: nat)
    requires Executable(plan)
    ensures DecisionOf(plan, w, k).Some? ==> Settleable(DecisionOf(plan, w, k).value)
  {
    assert CIRCUIT_OPEN[0] != ' ' && EXHAUSTED[0] != ' ' && INTERNAL[0] != ' ' && "openai"[0] != ' ';
    assert COST_FAILED[0] != ' ' && RESPONSE_FAILED[0] != ' ';
  }

  function UsageOf(plan: Plan, d: Decision): Usage {
    Usage(d.status.Completed?, d.cost, plan.version, d.details)
  }

  /** What the client is told when the worker thread's transaction ended so. */
  function Told(fate: DbFate, r: Reply): Reply {
    if fate.CancelledMeanwhile? then RequestCancelled else r
  }

  /**
  Transaction 2 for a decision about the request's own pending row: exactly that settlement, unless
  the database fails or the prompt version is gone.
  */
  method SettleDecision(db: Database, slot: Slot, plan: Plan, d: Decision, fate: DbFate)
    returns (r: Reply, ghost s: Option<Settlement>)
    requires Sound(db.tables) && Claimable(db.tables, slot) && Settleable(d)
    modifies db
    ensures Sound(db.tables)
    ensures if fate.Fails? || !VersionStands(old(db.tables), UsageOf(plan, d)) then
              s.None? && db.tables == old(db.tables) && r == Told(fate, SettlementUnresolved)
            else
              && s == Some(Settlement(old(db.tables), d.status, UsageOf(plan, d), db.tables))
              && SettledOne(s.value, slot) && r == Told(fate, d.reply)
  {
    var resolution := SettleAndResolve(db, slot, d.status, d.cost, plan.version, d.details, fate);
    r := Told(fate, Resolved(resolution, d.reply));
    s := if resolution.Proceed? then Some(Settlement(old(db.tables), d.status, UsageOf(plan, d), db.tables)) else None;
  }

  /**
  How a request ends after k calls: cancelled with its row as reserved; with exactly the settlement
  decided; or, if and only if the database failed or the prompt version was gone, unresolved with
  its row as reserved.
  */
  ghost predicate Concluded(plan: Plan, w: Surroundings, k: nat, slot: Slot, row: KeyRow, r: Reply,
                            settled: Option<Settlement>, final: Tables)
    requires Pricing.PricesExactly(plan.pricing)
  {
    match DecisionOf(plan, w, k)
    case None => r.RequestCancelled? && settled.None? && slot in final.keys && final.keys[slot] == row
    case Some(d) => DecisionConcluded(plan, w.settlementDb, d, slot, row, r, settled, final)
  }

  ghost predicate DecisionConcluded(plan: Plan, fate: DbFate, d: Decision, slot: Slot, row: KeyRow, r: Reply,
                                    settled: Option<Settlement>, final: Tables) {
    match settled
    case None =>
      && (fate.Fails? || !VersionStands(final, UsageOf(plan, d)))
      && r == Told(fate, SettlementUnresolved) && slot in final.keys && final.keys[slot] == row
    case Some(s) =>
      && !fate.Fails? && r == Told(fate, d.reply)
      && SettledOne(s, slot) && s == Settlement(s.before, d.status, UsageOf(plan, d), final) && s.before.keys[slot] == row
  }

  /** Settles a decision, or leaves a cancelled request as it is. */
  method Conclude(db: Database, slot: Slot, plan: Plan, w: Surroundings, d: Option<Decision>, ghost calls: nat)
    returns (r: Reply, ghost settled: Option<Settlement>)
    requires Sound(db.tables) && Claimable(db.tables, slot)
    requires Executable(plan) && d == DecisionOf(plan, w, calls)
    modifies db
    ensures Sound(db.tables)
    ensures old(db.tables) == if settled.Some? then settled.value.before else db.tables
    ensures Concluded(plan, w, calls, slot, old(db.tables.keys[slot]), r, settled, db.tables)
  {
    if d.None? {
      return RequestCancelled, None;
    }
    DecisionsAreSettleable(plan, w, calls);
    r, settled := SettleDecision(db, slot, plan, d.value, w.settlementDb);
  }

  /** From the committed reservation to the committed settlement, with other requests in between. */
  method ExecuteAndSettle(db: Database, clock: Clock, deps: Deps, slot: Slot, plan: Plan, w: Surroundings)
    returns (r: Reply, ghost settled: Option<Settlement>, ghost calls: nat)
    requires Sound(db.tables) && Claimable(db.tables, slot)
    requires ValidPolicy(deps.policy) && Executable(plan) && Supported(deps.registry, [plan.candidate])
    requires AllWorking(clock, deps.registry)
    modifies db, clock, Breakers(deps.registry)
    ensures Sound(db.tables)
    ensures Preserves(old(db.tables), if settled.Some? then settled.value.before else db.tables)
    ensures settled.Some? ==> Sound(settled.value.before)
    ensures AllWorking(clock, deps.registry)
    ensures CallsFit(deps, plan, w, calls)
    ensures Concluded(plan, w, calls, slot, old(db.tables.keys[slot]), r, settled, db.tables)
  {
    var d;
    d, calls := Execute(clock, deps, plan, w);
    Others(db, Some(slot));
    r, settled := Conclude(db, slot, plan, w, d, calls);
  }

  // ---------------------------------------------------------------- what only a new request must satisfy

  /** An absent or empty model means the default one. */
  function ModelOf(deps: Deps, p: Fingerprint.Payload): Option<string> {
    if p.model.Some? && p.model.value != "" then p.model else deps.defaultModel
  }

  predicate Known(deps: Deps, model: string) {
    ("openai", model) in deps.catalog && Supported(deps.registry, [Candidate("openai", model)])
  }

  predicate VersionAvailable(w: Surroundings, p: Fingerprint.Payload) {
    p.version.Some? ==> p.version.value in w.versions && w.versions[p.version.value].status.Approved?
  }

  /** The text that is counted and sent. */
  function EffectivePrompt(deps: Deps, w: Surroundings, p: Fingerprint.Payload): string
    requires VersionAvailable(w, p)
  {
    if p.version.Some? then deps.render(w.versions[p.version.value].template, p.prompt) else p.prompt
  }

  predicate PromptAcceptable(deps: Deps, w: Surroundings, p: Fingerprint.Payload)
    requires VersionAvailable(w, p)
  {
    p.version.Some? ==> var text := EffectivePrompt(deps, w, p); !deps.isBlank(text) && |text| <= MAX_PROMPT_CHARS
  }

  function CountOf(deps: Deps, w: Surroundings, p: Fingerprint.Payload): CountOutcome
    requires VersionAvailable(w, p) && ModelOf(deps, p).Some?
  {
    w.count(ModelOf(deps, p).value, EffectivePrompt(deps, w, p))
  }

  function Reserving(deps: Deps, p: Fingerprint.Payload, pricing: Pricing.ModelPricing, tokens: nat)
    : Result<Decimals.Dec, Pricing.PricingError>
    requires p.maxTokens >= 0
  {
    Reservation.ReservedCost(pricing, tokens, p.maxTokens, deps.policy.maxAttempts * 1)
  }

  /** What a new request within its rate limit is going to do, or the refusal of the first check it fails. */
  function PlanOutcome(deps: Deps, w: Surroundings, p: Fingerprint.Payload): Result<Plan, Reply>
    requires p.maxTokens >= 0
  {
    match ModelOf(deps, p)
    case None => Err(NoProvider)
    case Some(model) =>
      if deps.isBlank(model) then Err(PlanningRaised)
      else if !Known(deps, model) then Err(UnknownModel)
      else if !VersionAvailable(w, p) then Err(VersionNotAvailable)
      else if !PromptAcceptable(deps, w, p) then Err(InvalidRequest)
      else match CountOf(deps, w, p)
        case CountUnavailable => Err(CountingUnavailable)
        case CountRejected => Err(CountingRejected)
        case CountRaised => Err(CountingRaised)
        case Counted(tokens) =>
          var pricing := deps.catalog[("openai", model)];
          var reserved := Reserving(deps, p, pricing, tokens);
          if reserved.Err? then Err(InvalidRequest)
          else Ok(Plan(pricing, Candidate("openai", model), p.version, tokens, reserved.value.coeff))
  }

  /** What every plan guarantees to the steps after it. */
  lemma PlansAreExecutable(deps: Deps, w: Surroundings, p: Fingerprint.Payload)
    requires p.maxTokens >= 0 && ProperCatalog(deps.catalog)
    ensures match PlanOutcome(deps, w, p)
            case Err(refusal) => Refusal(refusal)
            case Ok(plan) => Executable(plan) && Supported(deps.registry, [plan.candidate]) && plan.reserved <= MAX_AMOUNT
  {
  }

  /** The exact cost of every attempt using all counted prompt tokens and all of max_tokens. */
  function WorstCost(deps: Deps, p: Fingerprint.Payload, pricing: Pricing.ModelPricing, tokens: nat): nat
    requires p.maxTokens >= 0 && Pricing.PricesExactly(pricing)
  {
    Pricing.Cost(pricing, tokens * deps.policy.maxAttempts, p.maxTokens * deps.policy.maxAttempts)
  }

  /** What a new request must satisfy: everything known, approved, acceptable and countable, at a storable worst cost. */
  ghost predicate Plannable(deps: Deps, w: Surroundings, p: Fingerprint.Payload)
    requires p.maxTokens >= 0 && ProperCatalog(deps.catalog)
  {
    && ModelOf(deps, p).Some? && !deps.isBlank(ModelOf(deps, p).value) && Known(deps, ModelOf(deps, p).value)
    && VersionAvailable(w, p) && PromptAcceptable(deps, w, p) && CountOf(deps, w, p).Counted?
    && WorstCost(deps, p, deps.catalog[("openai", ModelOf(deps, p).value)], CountOf(deps, w, p).tokens) <= MAX_AMOUNT
  }

  /** The plan of such a request: it reserves exactly the worst cost. */
  ghost predicate PlanIs(deps: Deps, w: Surroundings, p: Fingerprint.Payload, plan: Plan)
    requires p.maxTokens >= 0 && ProperCatalog(deps.catalog) && Plannable(deps, w, p)
  {
    && plan.candidate == Candidate("openai", ModelOf(deps, p).value) && plan.pricing == deps.catalog[("openai", ModelOf(deps, p).value)]
    && plan.version == p.version && plan.promptTokens == CountOf(deps, w, p).tokens
    && plan.reserved == WorstCost(deps, p, plan.pricing, plan.promptTokens)
  }

  lemma ReservingIs(deps: Deps, p: Fingerprint.Payload, pricing: Pricing.ModelPricing, tokens: nat)
    requires p.maxTokens >= 0 && Pricing.PricesExactly(pricing)
    ensures var reserved := Reserving(deps, p, pricing, tokens);
            && (reserved.Ok? <==> WorstCost(deps, p, pricing, tokens) <= MAX_AMOUNT)
            && (reserved.Ok? ==> reserved.value.coeff == WorstCost(deps, p, pricing, tokens))
  {
    var attempts := deps.policy.maxAttempts;
    Pricing.CostIsExactCeiling(pricing, tokens * attempts, p.maxTokens * attempts);
    assert attempts * 1 == attempts;
  }

  /** The chain of checks comes to one condition and one amount. */
  lemma PlanOutcomeIs(deps: Deps, w: Surroundings, p: Fingerprint.Payload)
    requires p.maxTokens >= 0 && ProperCatalog(deps.catalog)
    ensures PlanOutcome(deps, w, p).Ok? <==> Plannable(deps, w, p)
    ensures PlanOutcome(deps, w, p).Ok? ==> PlanIs(deps, w, p, PlanOutcome(deps, w, p).value)
  {
    var model := ModelOf(deps, p);
    if model.Some? && Known(deps, model.value) && VersionAvailable(w, p) && CountOf(deps, w, p).Counted? {
      ReservingIs(deps, p, deps.catalog[("openai", model.value)], CountOf(deps, w, p).tokens);
    }
  }

  /**
  Which refusal a request gets, for the model it asks for or the default one, the text it would send,
  and the i prompt and o completion tokens of every permitted attempt; and that it is planned, at the
  price of those, otherwise.
  */
  lemma RefusalTells(deps: Deps, w: Surroundings, p: Fingerprint.Payload, model: string, text: string, i: nat, o: nat)
    requires p.maxTokens >= 0 && ProperCatalog(deps.catalog)
    requires Some(model) == if p.model.Some? && p.model.value != "" then p.model else deps.defaultModel
    requires text == if p.version.Some? && p.version.value in w.versions then deps.render(w.versions[p.version.value].template, p.prompt)
                     else p.prompt
    requires w.count(model, text).Counted? ==> i == w.count(model, text).tokens * deps.policy.maxAttempts
    requires o == p.maxTokens * deps.policy.maxAttempts
    ensures var r := PlanOutcome(deps, w, p);
            if deps.isBlank(model) then r == Err(PlanningRaised)
            else if ("openai", model) !in deps.catalog || "openai" !in deps.registry || model !in deps.registry["openai"].models
            then r == Err(UnknownModel)
            else if p.version.Some? && (p.version.value !in w.versions || w.versions[p.version.value].status != PromptVersions.Approved)
            then r == Err(VersionNotAvailable)
            else if p.version.Some? && (deps.isBlank(text) || |text| > 20_000) then r == Err(InvalidRequest)
            else match w.count(model, text)
              case CountUnavailable => r == Err(CountingUnavailable)
              case CountRejected => r == Err(CountingRejected)
              case CountRaised => r == Err(CountingRaised)
              case Counted(n) =>
                var worst := Pricing.CalculateCost(deps.catalog[("openai", model)], i, o);
                if worst.Err? then r == Err(InvalidRequest)
                else r.Ok? && worst.value == Decimals.Dec(r.value.reserved, -6) && r.value.promptTokens == n
  {
    assert Supported(deps.registry, [Candidate("openai", model)]) <==> "openai" in deps.registry && model in deps.registry["openai"].models by {
      assert [Candidate("openai", model)][0].provider == "openai";
    }
    assert deps.policy.maxAttempts * 1 == deps.policy.maxAttempts;
  }

  /** Those checks as the handler makes them. */
  method PlanRequest(deps: Deps, w: Surroundings, p: Fingerprint.Payload) returns (r: Result<Plan, Reply>)
    requires p.maxTokens >= 1 && ProperCatalog(deps.catalog)
    ensures r.Ok? <==> Plannable(deps, w, p)
    ensures r.Ok? ==> PlanIs(deps, w, p, r.value)
    ensures r == PlanOutcome(deps, w, p)
    ensures r == Err(NoProvider) <==> (p.model.None? || p.model.value == "") && deps.defaultModel.None?
    ensures r.Ok? ==>
              && r.value.version == p.version && r.value.candidate.provider == "openai"
              && Some(r.value.candidate.model) == (if p.model.Some? && p.model.value != "" then p.model else deps.defaultModel)
              && ("openai", r.value.candidate.model) in deps.catalog
              && r.value.pricing == deps.catalog[("openai", r.value.candidate.model)]
              && "openai" in deps.registry && r.value.candidate.model in deps.registry["openai"].models
    ensures r.Ok? && p.version.None? ==> w.count(r.value.candidate.model, p.prompt) == Counted(r.value.promptTokens)
    ensures r.Ok? && p.version.Some? ==>
              && p.version.value in w.versions && w.versions[p.version.value].status.Approved?
              && var text := deps.render(w.versions[p.version.value].template, p.prompt);
              && !deps.isBlank(text) && |text| <= 20_000
              && w.count(r.value.candidate.model, text) == Counted(r.value.promptTokens)
  {
    PlanOutcomeIs(deps, w, p);
    var model := ModelOf(deps, p);
    if model.None? {
      return Err(NoProvider);
    }
    if deps.isBlank(model.value) {
      return Err(PlanningRaised);
    }
    if ("openai", model.value) !in deps.catalog {
      return Err(UnknownModel);
    }
    var pricing := deps.catalog[("openai", model.value)];
    var route := BuildRoute([Candidate("openai", model.value)]);
    if route.Err? {
      return Err(UnknownModel);
    }
    var valid := ValidateRouteAgainstRegistry(deps.registry, route.value);
    if valid.Err? {
      return Err(UnknownModel);
    }
    var effective := p.prompt;
    if p.version.Some? {
      if p.version.value !in w.versions || w.versions[p.version.value].status != PromptVersions.Approved {
        return Err(VersionNotAvailable);
      }
      effective := deps.render(w.versions[p.version.value].template, p.prompt);
      if deps.isBlank(effective) || |effective| > MAX_PROMPT_CHARS {
        return Err(InvalidRequest);
      }
    }
    match w.count(model.value, effective) {
      case CountUnavailable => return Err(CountingUnavailable);
      case CountRejected => return Err(CountingRejected);
      case CountRaised => return Err(CountingRaised);
      case Counted(tokens) =>
        var attempts := deps.policy.maxAttempts * |route.value|;
        var reserved := Reservation.ReservedCost(pricing, tokens, p.maxTokens, attempts);
        if reserved.Err? {
          return Err(InvalidRequest);
        }
        return Ok(Plan(pricing, route.value[0], p.version, tokens, reserved.value.coeff));
    }
  }

  /** The rate limiter, failing closed when it cannot be reached. */
  method CheckLimiter(key: RateLimit.TeamKey, w: Surroundings) returns (r: Option<Reply>)
    requires key.Valid() && (key.history != [] ==> RateLimit.LastAt(key.history) <= w.limiterNow)
    modifies key
    ensures key.Valid()
    ensures !w.limiterUp ==> r == Some(LimiterUnavailable) && key.history == old(key.history)
    ensures w.limiterUp ==>
              && key.history == old(key.history) + [RateLimit.Entry(w.limiterNow, w.member, r.None?)]
              && (r.None? <==> WithinLimit(old(key.history), key.limits, w))
              && (r.Some? ==> r.value.RateLimited? && !r.value.limit.allowed && r.value.limit.currentCount == key.limits.limit)
  {
    if !w.limiterUp {
      return Some(LimiterUnavailable);
    }
    var limit;
    ghost var oldest;
    limit, oldest := key.Check(w.limiterNow, w.member);
    return if limit.allowed then None else Some(RateLimited(limit));
  }

  /** Fewer than the limit were admitted within the window. */
  ghost predicate WithinLimit(h: seq<RateLimit.Entry>, limits: RateLimit.Limits, w: Surroundings) {
    |RateLimit.AdmittedSince(h, RateLimit.EvictBelow(limits, w.limiterNow))| < limits.limit
  }

  /** What Transaction 1 answers on tables t, or nothing when it reserves. */
  function ReservationReply(t: Tables, slot: Slot, hash: string, reserved: nat, w: Surroundings): Option<Reply> {
    var periods := ActivePeriods(t, slot.team, w.today);
    if periods == {} then Some(NoBudgetPeriod)
    else if |periods| > 1 || reserved > MAX_AMOUNT then Some(ReservationRaised)
    else if slot in t.keys then Some(Answered(Precheck(t.keys[slot], hash, w.insertedAt)))
    else if reserved > t.budgets[TheOne(periods)].remaining then Some(NotEnoughBudget)
    else None
  }

  function Txn1Reply(r: Txn1Result): Option<Reply> {
    match r
    case Txn1Acquired => None
    case Txn1Answered(answer) => Some(Answered(answer))
    case Txn1NoActivePeriod => Some(NoBudgetPeriod)
    case Txn1InsufficientBudget => Some(NotEnoughBudget)
    case Txn1Raised(_) => Some(ReservationRaised)
  }

  /**
  What a planned request did that outlives it: the tables Transaction 1 saw and the tables it
  committed, its adapter calls, its settlement.
  */
  datatype Trace = Trace(seen: Tables, reserved: Option<Tables>, calls: nat, settled: Option<Settlement>)

  /** Both transactions found the ledger sound. */
  ghost predicate SoundTrace(trace: Trace) {
    match trace.settled
    case None => Sound(trace.seen)
    case Some(s) => Sound(trace.seen) && Sound(s.before)
  }

  /** The reservation is one atomic Reserve of a fresh pending row for this request. */
  ghost predicate ReservedOne(before: Tables, after: Tables, slot: Slot, hash: string, plan: Plan, now: int) {
    && slot in after.keys
    && var row := after.keys[slot];
    && CanReserve(before, slot, row) && after == Reserve(before, slot, row)
    && row.hash == hash && row.reserved == plan.reserved && row.expiresAt == now + TTL
  }

  /** That answer in the budgets and the row themselves. */
  lemma ReservationReplyTells(t: Tables, slot: Slot, hash: string, reserved: nat, w: Surroundings)
    ensures var r := ReservationReply(t, slot, hash, reserved, w);
            r == Some(NoBudgetPeriod) <==>
              forall b | b in t.budgets && b.team == slot.team :: !(b.start <= w.today < t.budgets[b].end)
    ensures var r := ReservationReply(t, slot, hash, reserved, w);
            r == Some(NotEnoughBudget) <==>
              && slot !in t.keys && reserved <= 999_999_999_999
              && exists b :: && b in t.budgets && b.team == slot.team && b.start <= w.today < t.budgets[b].end
                             && t.budgets[b].remaining < reserved
                             && forall c | c in t.budgets && c.team == slot.team && c.start <= w.today < t.budgets[c].end :: c == b
    ensures var r := ReservationReply(t, slot, hash, reserved, w);
            r.Some? && r.value.Answered? ==>
              && slot in t.keys
              && var row := t.keys[slot];
              && r.value.answer == if row.hash != hash then Conflict else
                                     match row.status
                                     case Completed(snapshot) => Replay(snapshot)
                                     case Failed(errorCode) => PreviouslyFailed(errorCode)
                                     case Pending => if w.insertedAt < row.expiresAt then InProgress else ExpiredPending
  {
    var periods := ActivePeriods(t, slot.team, w.today);
    CoveringPeriods(t, slot.team, w.today);
    if |periods| == 1 {
      forall b | b in periods
        ensures b == TheOne(periods)
      {
        OnlyOne(periods, b, TheOne(periods));
      }
    }
  }

  /** Transaction 1 as it is answered to the client. */
  method ReserveNow(db: Database, slot: Slot, hash: string, plan: Plan, w: Surroundings) returns (r: Option<Reply>)
    requires Sound(db.tables)
    modifies db
    ensures Sound(db.tables)
    ensures r == ReservationReply(old(db.tables), slot, hash, plan.reserved, w)
    ensures if r.Some? then db.tables == old(db.tables) else ReservedOne(old(db.tables), db.tables, slot, hash, plan, w.insertedAt)
    ensures r.None? ==>
              && slot in db.tables.keys
              && var t, row := old(db.tables), db.tables.keys[slot];
              && var b := BudgetId(slot.team, row.period);
              && row == KeyRow(row.period, hash, Pending, plan.reserved, w.insertedAt + 300)
              && b in t.budgets && b.start <= w.today < t.budgets[b].end
              && b in db.tables.budgets && db.tables.budgets[b].remaining == t.budgets[b].remaining - plan.reserved
  {
    ghost var t := db.tables;
    var txn1 := RunTxn1(db, slot, hash, plan.reserved, w.today, w.insertedAt);
    ghost var periods := ActivePeriods(t, slot.team, w.today);
    if |periods| == 1 {
      assert forall b | b in periods :: b == TheOne(periods) by {
        forall b | b in periods
          ensures b == TheOne(periods)
        {
          OnlyOne(periods, b, TheOne(periods));
        }
      }
    }
    if txn1.Txn1Acquired? {
      ReserveKeepsSound(t, slot, db.tables.keys[slot]);
    }
    return Txn1Reply(txn1);
  }

  /**
  Transaction 1 for a planned request, on the tables others left: the reservation against the budget
  that covers the day, or an answer and no change; and no change if the database fails.
  */
  method ReserveFor(db: Database, slot: Slot, hash: string, plan: Plan, w: Surroundings) returns (r: Option<Reply>, ghost seen: Tables)
    requires Sound(db.tables)
    modifies db
    ensures Sound(db.tables)
    ensures Preserves(old(db.tables), seen) && Sound(seen)
    ensures r == if w.reservationDb.Fails? then Some(ReservationRaised) else ReservationReply(seen, slot, hash, plan.reserved, w)
    ensures if r.Some? then db.tables == seen else ReservedOne(seen, db.tables, slot, hash, plan, w.insertedAt)
    ensures r == Some(NoBudgetPeriod) <==>
              && !w.reservationDb.Fails?
              && forall b | b in seen.budgets && b.team == slot.team :: !(b.start <= w.today < seen.budgets[b].end)
    ensures r == Some(NotEnoughBudget) <==>
              && !w.reservationDb.Fails? && slot !in seen.keys && plan.reserved <= 999_999_999_999
              && exists b :: && b in seen.budgets && b.team == slot.team && b.start <= w.today < seen.budgets[b].end
                             && seen.budgets[b].remaining < plan.reserved
                             && forall c | c in seen.budgets && c.team == slot.team && c.start <= w.today < seen.budgets[c].end :: c == b
    ensures r.None? ==>
              && slot in db.tables.keys
              && var row := db.tables.keys[slot];
              && var b := BudgetId(slot.team, row.period);
              && row == KeyRow(row.period, hash, Pending, plan.reserved, w.insertedAt + 300)
              && b in seen.budgets && b.start <= w.today < seen.budgets[b].end
              && b in db.tables.budgets && db.tables.budgets[b].remaining == seen.budgets[b].remaining - plan.reserved
  {
    Others(db, None);
    seen := db.tables;
    if w.reservationDb.Fails? {
      return Some(ReservationRaised), seen;
    }
    ReservationReplyTells(seen, slot, hash, plan.reserved, w);
    r := ReserveNow(db, slot, hash, plan, w);
  }

  /** How a planned request must end, given the tables Transaction 1 saw and the calls the provider got. */
  ghost predicate Accounted(deps: Deps, plan: Plan, slot: Slot, hash: string, w: Surroundings, r: Reply, trace: Trace, final: Tables)
    requires Pricing.PricesExactly(plan.pricing)
  {
    match if w.reservationDb.Fails? then Some(ReservationRaised) else ReservationReply(trace.seen, slot, hash, plan.reserved, w)
    case Some(refusal) => r == Told(w.reservationDb, refusal) && trace == Trace(trace.seen, None, 0, None) && final == trace.seen
    case None =>
      && trace.reserved.Some? && ReservedOne(trace.seen, trace.reserved.value, slot, hash, plan, w.insertedAt)
      && if w.reservationDb.CancelledMeanwhile? then
           r.RequestCancelled? && trace.calls == 0 && trace.settled.None? && final == trace.reserved.value
         else
           && CallsFit(deps, plan, w, trace.calls)
           && (trace.settled.Some? ==> Preserves(trace.reserved.value, trace.settled.value.before))
           && Concluded(plan, w, trace.calls, slot, trace.reserved.value.keys[slot], r, trace.settled, final)
  }

  /** The billed part: reserve, execute, settle. */
  method Perform(db: Database, clock: Clock, deps: Deps, slot: Slot, hash: string, plan: Plan, w: Surroundings)
    returns (r: Reply, ghost trace: Trace)
    requires Sound(db.tables) && ValidPolicy(deps.policy) && Executable(plan)
    requires Supported(deps.registry, [plan.candidate])
    requires AllWorking(clock, deps.registry)
    modifies db, clock, Breakers(deps.registry)
    ensures Sound(db.tables) && AllWorking(clock, deps.registry)
    ensures Preserves(old(db.tables), trace.seen) && SoundTrace(trace)
    ensures Accounted(deps, plan, slot, hash, w, r, trace, db.tables)
  {
    var refused;
    ghost var seen;
    refused, seen := ReserveFor(db, slot, hash, plan, w);
    if refused.Some? {
      return Told(w.reservationDb, refused.value), Trace(seen, None, 0, None);
    }
    ghost var after := db.tables;
    if w.reservationDb.CancelledMeanwhile? {
      return RequestCancelled, Trace(seen, Some(after), 0, None);
    }
    ghost var settled, calls;
    r, settled, calls := ExecuteAndSettle(db, clock, deps, slot, plan, w);
    trace := Trace(seen, Some(after), calls, settled);
  }

  /**
  The reply tells whether money moved. A refusal means nothing was reserved, executed or settled. A
  reservation without a settlement leaves the row pending, and the client cancelled or is told that
  the settlement is unresolved. Success is reported only of a COMPLETED row with that snapshot. A
  failure costs nothing unless an answer came whose response could not be built.
  */
  lemma ReplyTellsOutcome(deps: Deps, plan: Plan, slot: Slot, hash: string, w: Surroundings, r: Reply, trace: Trace, final: Tables)
    requires Pricing.PricesExactly(plan.pricing) && Accounted(deps, plan, slot, hash, w, r, trace, final)
    ensures Refusal(r) ==> trace.reserved.None?
    ensures trace.reserved.None? ==> (Refusal(r) || r.RequestCancelled?) && trace.settled.None? && trace.calls == 0
    ensures trace.reserved.Some? && trace.settled.None? ==>
              (r.RequestCancelled? || r.SettlementUnresolved?) && Claimable(final, slot)
    ensures r.SettlementUnresolved? ==> trace.reserved.Some? && trace.settled.None?
    ensures trace.settled.Some? ==> slot in final.keys && slot in final.usage && !final.keys[slot].status.Pending?
    ensures r.Succeeded? ==> trace.settled.Some? && final.keys[slot].status == Status.Completed(r.snapshot)
    ensures trace.settled.Some? && final.keys[slot].status.Completed? ==> r.Succeeded? || r.RequestCancelled?
    ensures trace.settled.Some? && !final.keys[slot].status.Completed? && final.keys[slot].status != Status.Failed(RESPONSE_FAILED) ==>
              final.usage[slot].actualCost == 0
    ensures trace.settled.Some? ==> (final.keys[slot].status == Status.Failed(CIRCUIT_OPEN) <==> trace.calls == 0)
    ensures trace.calls <= deps.policy.maxAttempts
    ensures r.ProviderRejected? ==>
              trace.calls > 0 && (w.reply(0, trace.calls).NonRetryableError? || w.reply(0, trace.calls).BareProviderError?)
    ensures r.ProviderUnavailable? ==>
              && (r.nothingSent <==> trace.calls == 0)
              && (trace.calls > 0 ==> w.reply(0, trace.calls).TimedOut? || w.reply(0, trace.calls).RetryableError?)
    ensures r.RequestCancelled? <==>
              || w.reservationDb.CancelledMeanwhile?
              || (trace.reserved.Some? && w.settlementDb.CancelledMeanwhile?)
              || (trace.reserved.Some? && trace.calls > 0 && w.reply(0, trace.calls).Cancelled?)
    ensures r.SettlementUnresolved? <==>
              && trace.reserved.Some? && w.reservationDb.Healthy? && !w.settlementDb.CancelledMeanwhile?
              && !(trace.calls > 0 && w.reply(0, trace.calls).Cancelled?)
              && (w.settlementDb.Fails? || (plan.version.Some? && plan.version.value !in final.versions))
  {
    if trace.reserved.Some? && !w.reservationDb.CancelledMeanwhile? {
      ConclusionTells(plan, w, trace.calls, slot, trace.reserved.value.keys[slot], r, trace.settled, final);
    }
  }

  /** The decision in the last reply alone: nothing for a cancelled request, and otherwise code and reply. */
  lemma DecisionFollowsReply(plan: Plan, w: Surroundings, k: nat)
    requires Pricing.PricesExactly(plan.pricing)
    ensures DecisionOf(plan, w, k).None? <==> k > 0 && w.reply(0, k) == Cancelled
    ensures k == 0 ==> DecisionOf(plan, w, k) == Some(Failing("CIRCUIT_OPEN_NO_ATTEMPT", 0, NoAnswer(plan, 0), ProviderUnavailable(true)))
    ensures k > 0 && (w.reply(0, k) == TimedOut || w.reply(0, k) == RetryableError) ==>
              DecisionOf(plan, w, k) == Some(Failing("RETRIES_EXHAUSTED_COST_UNKNOWN", 0, NoAnswer(plan, 0), ProviderUnavailable(false)))
    ensures k > 0 && (w.reply(0, k) == NonRetryableError || w.reply(0, k) == BareProviderError) ==>
              DecisionOf(plan, w, k) == Some(Failing("RETRIES_EXHAUSTED_COST_UNKNOWN", 0, NoAnswer(plan, 0), ProviderRejected))
    ensures k > 0 && (w.reply(0, k) == Malformed || w.reply(0, k) == OtherException) ==>
              DecisionOf(plan, w, k) == Some(Failing("INTERNAL_ERROR", 0, NoAnswer(plan, 0), InternalError))
    ensures k > 0 && w.reply(0, k).Completed? ==>
              var a, c := w.reply(0, k).result, plan.candidate;
              if a.provider == c.provider && a.model == c.model && a.promptTokens >= 0 && a.completionTokens >= 0 && a.latencyMs >= 0
              then DecisionOf(plan, w, k) == Some(SuccessDecision(plan, a, w))
              else DecisionOf(plan, w, k) == Some(Failing("INTERNAL_ERROR", 0, NoAnswer(plan, 0), InternalError))
  {
  }

  /** The row is settled as failed with this code, and its record tells of no cost and no tokens. */
  predicate EndedFree(t: Tables, slot: Slot, code: string) {
    && slot in t.keys && t.keys[slot].status == Status.Failed(code)
    && slot in t.usage && !t.usage[slot].succeeded && t.usage[slot].actualCost == 0
    && t.usage[slot].details.promptTokens == 0 && t.usage[slot].details.completionTokens == 0
  }

  /** The row is settled with this status, and its record holds the answer's own counts and their price x rounded up. */
  ghost predicate EndedCharged(t: Tables, slot: Slot, status: Status, a: CompletionResult, x: nat) {
    && slot in t.keys && t.keys[slot].status == status
    && slot in t.usage && (t.usage[slot].succeeded <==> status.Completed?)
    && t.usage[slot].details.promptTokens == a.promptTokens && t.usage[slot].details.completionTokens == a.completionTokens
    && (t.usage[slot].actualCost - 1) * Decimals.Pow10(16) < x <= t.usage[slot].actualCost * Decimals.Pow10(16)
  }

  lemma DecisionIsCommitted(deps: Deps, plan: Plan, slot: Slot, hash: string, w: Surroundings, r: Reply, trace: Trace, final: Tables)
    requires Pricing.PricesExactly(plan.pricing) && Accounted(deps, plan, slot, hash, w, r, trace, final)
    requires trace.reserved.Some? && w.reservationDb.Healthy? && w.settlementDb.Healthy?
    requires plan.version.Some? ==> plan.version.value in final.versions
    ensures match DecisionOf(plan, w, trace.calls)
            case None => r == RequestCancelled && slot in final.keys && final.keys[slot] == trace.reserved.value.keys[slot]
            case Some(d) =>
              r == d.reply && Shows(final, slot, plan, d)
  {
  }

  /** How a decision shows in the tables it was committed to. */
  predicate Shows(t: Tables, slot: Slot, plan: Plan, d: Decision) {
    && slot in t.keys && t.keys[slot].status == d.status
    && slot in t.usage && t.usage[slot] == UsageOf(plan, d)
  }

  lemma AnswerEnds(plan: Plan, a: CompletionResult, w: Surroundings, x: nat, r: Reply, t: Tables, slot: Slot)
    requires Pricing.PricesExactly(plan.pricing) && a.promptTokens >= 0 && a.completionTokens >= 0
    requires x == a.promptTokens * plan.pricing.inputRate.coeff * Decimals.Pow10(16 + plan.pricing.inputRate.exp)
                  + a.completionTokens * plan.pricing.outputRate.coeff * Decimals.Pow10(16 + plan.pricing.outputRate.exp)
    requires Shows(t, slot, plan, SuccessDecision(plan, a, w)) && r == SuccessDecision(plan, a, w).reply
    ensures if x > 999_999_999_999 * Decimals.Pow10(16) then
              r == InternalError && EndedFree(t, slot, "COST_CALCULATION_FAILED")
            else if r.Succeeded? then
              EndedCharged(t, slot, Status.Completed(r.snapshot), a, x) && w.response(a, t.usage[slot].actualCost) == Some(r.snapshot)
            else
              && r == InternalError && EndedCharged(t, slot, Status.Failed("RESPONSE_CONSTRUCTION_FAILED"), a, x)
              && w.response(a, t.usage[slot].actualCost) == None
  {
    SuccessTells(plan, a, w, x);
  }

  /**
  Reply and settlement in the provider's last reply alone, when both transactions run and the prompt
  version still exists: 503 when nothing was sent or the last attempt may be retried, 502 for a
  rejection, the answer charged at its price x, and a failed or undeliverable answer as an error.
  */
  lemma ReplyFollowsProvider(deps: Deps, plan: Plan, slot: Slot, hash: string, w: Surroundings, r: Reply, trace: Trace, final: Tables, x: nat)
    requires Pricing.PricesExactly(plan.pricing) && Accounted(deps, plan, slot, hash, w, r, trace, final)
    requires trace.reserved.Some? && w.reservationDb.Healthy? && w.settlementDb.Healthy?
    requires plan.version.Some? ==> plan.version.value in final.versions
    requires trace.calls > 0 && w.reply(0, trace.calls).Completed? ==>
               x == w.reply(0, trace.calls).result.promptTokens * plan.pricing.inputRate.coeff * Decimals.Pow10(16 + plan.pricing.inputRate.exp)
                    + w.reply(0, trace.calls).result.completionTokens * plan.pricing.outputRate.coeff * Decimals.Pow10(16 + plan.pricing.outputRate.exp)
    ensures trace.calls == 0 ==> r == ProviderUnavailable(true) && EndedFree(final, slot, "CIRCUIT_OPEN_NO_ATTEMPT")
    ensures trace.calls > 0 ==>
              match w.reply(0, trace.calls)
              case TimedOut => r == ProviderUnavailable(false) && EndedFree(final, slot, "RETRIES_EXHAUSTED_COST_UNKNOWN")
              case RetryableError => r == ProviderUnavailable(false) && EndedFree(final, slot, "RETRIES_EXHAUSTED_COST_UNKNOWN")
              case NonRetryableError => r == ProviderRejected && EndedFree(final, slot, "RETRIES_EXHAUSTED_COST_UNKNOWN")
              case BareProviderError => r == ProviderRejected && EndedFree(final, slot, "RETRIES_EXHAUSTED_COST_UNKNOWN")
              case Malformed => r == InternalError && EndedFree(final, slot, "INTERNAL_ERROR")
              case OtherException => r == InternalError && EndedFree(final, slot, "INTERNAL_ERROR")
              case Cancelled => r == RequestCancelled && slot in final.keys && final.keys[slot] == trace.reserved.value.keys[slot]
              case Completed(a) =>
                var c := plan.candidate;
                if a.provider != c.provider || a.model != c.model || a.promptTokens < 0 || a.completionTokens < 0 || a.latencyMs < 0 then
                  r == InternalError && EndedFree(final, slot, "INTERNAL_ERROR")
                else if x > 999_999_999_999 * Decimals.Pow10(16) then
                  r == InternalError && EndedFree(final, slot, "COST_CALCULATION_FAILED")
                else if r.Succeeded? then
                  EndedCharged(final, slot, Status.Completed(r.snapshot), a, x) && w.response(a, final.usage[slot].actualCost) == Some(r.snapshot)
                else
                  && r == InternalError && EndedCharged(final, slot, Status.Failed("RESPONSE_CONSTRUCTION_FAILED"), a, x)
                  && w.response(a, final.usage[slot].actualCost) == None
  {
    DecisionIsCommitted(deps, plan, slot, hash, w, r, trace, final);
    DecisionFollowsReply(plan, w, trace.calls);
    if trace.calls > 0 && EndingOf(plan.candidate, w.reply(0, trace.calls)).Finished? {
      AnswerEnds(plan, w.reply(0, trace.calls).result, w, x, r, final, slot);
    }
  }

  lemma ConclusionTells(plan: Plan, w: Surroundings, k: nat, slot: Slot, row: KeyRow, r: Reply, settled: Option<Settlement>, final: Tables)
    requires Pricing.PricesExactly(plan.pricing) && Concluded(plan, w, k, slot, row, r, settled, final)
    ensures !Refusal(r)
    ensures r.ProviderRejected? ==> k > 0 && (w.reply(0, k).NonRetryableError? || w.reply(0, k).BareProviderError?)
    ensures r.ProviderUnavailable? ==>
              (r.nothingSent <==> k == 0) && (k > 0 ==> w.reply(0, k).TimedOut? || w.reply(0, k).RetryableError?)
    ensures r.RequestCancelled? <==> w.settlementDb.CancelledMeanwhile? || (k > 0 && w.reply(0, k).Cancelled?)
    ensures r.SettlementUnresolved? <==>
              && !w.settlementDb.CancelledMeanwhile? && !(k > 0 && w.reply(0, k).Cancelled?)
              && (w.settlementDb.Fails? || (plan.version.Some? && plan.version.value !in final.versions))
    ensures settled.None? ==> (r.RequestCancelled? || r.SettlementUnresolved?) && slot in final.keys && final.keys[slot] == row
    ensures r.SettlementUnresolved? || r.Succeeded? ==> (r.Succeeded? <==> settled.Some?)
    ensures match settled
            case None => true
            case Some(s) =>
              && slot in final.keys && slot in final.usage && final.keys[slot].status == s.status && final.usage[slot] == s.usage
              && !s.status.Pending?
              && (r.Succeeded? ==> s.status == Status.Completed(r.snapshot))
              && (s.status.Completed? ==> r.Succeeded? || r.RequestCancelled?)
              && (!s.status.Completed? && s.status != Status.Failed(RESPONSE_FAILED) ==> s.usage.actualCost == 0)
              && (s.status == Status.Failed(CIRCUIT_OPEN) <==> k == 0)
  {
    DecisionTells(plan, w, k);
  }

  /** A commit that keeps every other request's row, and only moves the ledger as it may. */
  ghost predicate Spares(t: Tables, t': Tables, slot: Slot) {
    && Sound(t') && Preserves(t, t')
    && forall s | s in t.keys && s != slot :: t'.keys[s] == t.keys[s]
  }

  lemma ReserveSpares(t: Tables, slot: Slot, row: KeyRow)
    requires Sound(t) && CanReserve(t, slot, row)
    ensures Spares(t, Reserve(t, slot, row), slot)
  {
    ReserveKeepsSound(t, slot, row);
    ReservePreserves(t, slot, row);
  }

  lemma SettleSpares(t: Tables, slot: Slot, status: Status, usage: Usage)
    requires Sound(t) && CanSettle(t, slot, status, usage)
    ensures Spares(t, Settle(t, slot, status, usage), slot)
  {
    SettleKeepsSound(t, slot, status, usage);
    SettlePreserves(t, slot, status, usage);
  }

  /** The guarantee that goes with Others: this request's own commits are ones others may rely on. */
  lemma CommitsSpareOthers(deps: Deps, plan: Plan, slot: Slot, hash: string, w: Surroundings, r: Reply, trace: Trace, final: Tables)
    requires Pricing.PricesExactly(plan.pricing) && Accounted(deps, plan, slot, hash, w, r, trace, final)
    requires SoundTrace(trace)
    ensures trace.reserved.Some? ==> Spares(trace.seen, trace.reserved.value, slot)
    ensures trace.settled.Some? ==> Spares(trace.settled.value.before, trace.settled.value.after, slot)
  {
    if trace.reserved.Some? {
      ReserveSpares(trace.seen, slot, trace.reserved.value.keys[slot]);
    }
    if trace.settled.Some? {
      SettleSpares(trace.settled.value.before, slot, trace.settled.value.status, trace.settled.value.usage);
    }
  }

  lemma DecisionTells(plan: Plan, w: Surroundings, k: nat)
    requires Pricing.PricesExactly(plan.pricing)
    ensures match DecisionOf(plan, w, k)
            case None => true
            case Some(d) =>
              && !Refusal(d.reply) && !d.reply.RequestCancelled? && !d.reply.SettlementUnresolved? && !d.status.Pending?
              && (d.reply.Succeeded? <==> d.status.Completed?)
              && (d.reply.Succeeded? ==> d.status == Status.Completed(d.reply.snapshot))
              && (!d.reply.Succeeded? && d.status != Status.Failed(RESPONSE_FAILED) ==> d.cost == 0)
              && (d.status == Status.Failed(CIRCUIT_OPEN) <==> k == 0)
  {
    CodesDiffer();
  }

  lemma SuccessCost(plan: Plan, w: Surroundings, k: nat)
    requires Pricing.PricesExactly(plan.pricing)
    ensures match DecisionOf(plan, w, k)
            case None => true
            case Some(d) => d.reply.Succeeded? ==>
              && w.reply(0, k).Completed?
              && w.reply(0, k).result.promptTokens >= 0 && w.reply(0, k).result.completionTokens >= 0
              && d.cost == Pricing.Cost(plan.pricing, w.reply(0, k).result.promptTokens, w.reply(0, k).result.completionTokens)
  {
  }

  /**
  End to end: a successful answer within the counted prompt and max_tokens is charged its exact cost
  rounded up to a micro-dollar, and the rest of its reservation is back in the budget.
  */
  lemma SuccessChargesTrueCost(deps: Deps, w: Surroundings, p: Fingerprint.Payload, plan: Plan, k: nat, slot: Slot, row: KeyRow,
                               r: Reply, settled: Option<Settlement>, final: Tables, answer: CompletionResult)
    requires p.maxTokens >= 1 && ValidPolicy(deps.policy) && PlanOutcome(deps, w, p) == Ok(plan) && Pricing.PricesExactly(plan.pricing)
    requires Concluded(plan, w, k, slot, row, r, settled, final) && r.Succeeded? && row.reserved == plan.reserved
    requires w.reply(0, k) == Routing.Completed(answer)
    requires answer.promptTokens <= plan.promptTokens && answer.completionTokens <= p.maxTokens
    ensures settled.Some? && answer.promptTokens >= 0 && answer.completionTokens >= 0
    ensures var cost, b := Pricing.Cost(plan.pricing, answer.promptTokens, answer.completionTokens), BudgetOf(slot, row);
            && cost <= row.reserved && Charge(final, b, slot) == cost
            && b in settled.value.before.budgets && b in final.budgets
            && final.budgets[b].remaining == settled.value.before.budgets[b].remaining + row.reserved - cost
  {
    SuccessCost(plan, w, k);
    PlannedCostFits(deps, w, p, plan, answer.promptTokens, answer.completionTokens);
    SettleCharges(settled.value.before, slot, settled.value.status, settled.value.usage);
  }

  lemma PlannedCostFits(deps: Deps, w: Surroundings, p: Fingerprint.Payload, plan: Plan, prompt: nat, completion: nat)
    requires p.maxTokens >= 1 && ValidPolicy(deps.policy) && PlanOutcome(deps, w, p) == Ok(plan) && Pricing.PricesExactly(plan.pricing)
    requires prompt <= plan.promptTokens && completion <= p.maxTokens
    ensures Pricing.Cost(plan.pricing, prompt, completion) <= plan.reserved
  {
    var used := Reservation.CallUsage(prompt, completion);
    Reservation.SuccessIsNeverCapped(plan.pricing, deps.policy, [plan.candidate], used, plan.promptTokens, p.maxTokens);
    Reservation.PricedIsCost(plan.pricing, prompt, completion);
  }

  lemma CodesDiffer()
    ensures CIRCUIT_OPEN != EXHAUSTED && CIRCUIT_OPEN != INTERNAL && CIRCUIT_OPEN != COST_FAILED && CIRCUIT_OPEN != RESPONSE_FAILED
    ensures RESPONSE_FAILED != EXHAUSTED && RESPONSE_FAILED != INTERNAL && RESPONSE_FAILED != COST_FAILED
  {
    assert CIRCUIT_OPEN[1] == 'I' && EXHAUSTED[1] == 'E' && INTERNAL[1] == 'N' && COST_FAILED[1] == 'O' && RESPONSE_FAILED[0] == 'R';
    assert CIRCUIT_OPEN[0] == 'C' && RESPONSE_FAILED[2] == 'S' && EXHAUSTED[2] == 'T';
    assert INTERNAL[0] == 'I' && COST_FAILED[0] == 'C';
  }

  /** How a request whose key had no row must end, within saying whether its team was within the limit. */
  ghost predicate NewRequest(deps: Deps, req: ChatRequest, hash: string, w: Surroundings, within: bool, r: Reply, trace: Option<Trace>,
                             initial: Tables, final: Tables)
    requires req.payload.maxTokens >= 0
  {
    match if w.limiterUp && within then PlanOutcome(deps, w, req.payload) else Err(r)
      case Err(_) => RefusedEarly(deps, w, req.payload, within, r) && trace.None? && final == initial
      case Ok(plan) =>
        && trace.Some? && Preserves(initial, trace.value.seen) && SoundTrace(trace.value) && Pricing.PricesExactly(plan.pricing)
        && Accounted(deps, plan, req.slot, hash, w, r, trace.value, final)
  }

  /**
  The limiter comes first: unreachable or over the limit, of members admitted in its window, it refuses
  and nothing changes; otherwise a request is reserved for exactly if it can be planned.
  */
  lemma NewRequestTells(deps: Deps, req: ChatRequest, hash: string, w: Surroundings, checked: seq<RateLimit.Entry>, limits: RateLimit.Limits,
                        r: Reply, trace: Option<Trace>, initial: Tables, final: Tables)
    requires req.payload.maxTokens >= 0
    requires NewRequest(deps, req, hash, w, WithinLimit(checked, limits, w), r, trace, initial, final)
    ensures var admitted := |RateLimit.AdmittedSince(checked, limits.rounding.at(w.limiterNow - limits.windowSeconds * 1_000_000))|;
            && (!w.limiterUp ==> r == LimiterUnavailable)
            && (w.limiterUp && admitted >= limits.limit ==> r.RateLimited?)
            && (trace.Some? <==> w.limiterUp && admitted < limits.limit && PlanOutcome(deps, w, req.payload).Ok?)
            && (w.limiterUp && admitted < limits.limit && trace.None? ==> PlanOutcome(deps, w, req.payload) == Err(r))
    ensures trace.None? ==> final == initial
  {
  }

  method HandleNew(db: Database, key: RateLimit.TeamKey, clock: Clock, deps: Deps, req: ChatRequest, hash: string, w: Surroundings)
    returns (r: Reply, ghost trace: Option<Trace>, ghost checked: seq<RateLimit.Entry>)
    requires Sound(db.tables) && req.payload.maxTokens >= 1 && ValidPolicy(deps.policy) && ProperCatalog(deps.catalog)
    requires key.Valid() && (key.history != [] ==> RateLimit.LastAt(key.history) <= w.limiterNow)
    requires AllWorking(clock, deps.registry)
    modifies db, key, clock, Breakers(deps.registry)
    ensures Sound(db.tables) && key.Valid() && AllWorking(clock, deps.registry)
    ensures old(key.history) <= checked
    ensures var within := WithinLimit(checked, key.limits, w);
            && (w.limiterUp ==> checked + [RateLimit.Entry(w.limiterNow, w.member, within)] <= key.history)
            && NewRequest(deps, req, hash, w, within, r, trace, old(db.tables), db.tables)
  {
    var plan;
    plan, checked := Judge(key, deps, w, req.payload);
    if plan.Err? {
      return plan.error, None, checked;
    }
    ghost var t;
    r, t := Perform(db, clock, deps, req.slot, hash, plan.value, w);
    trace := Some(t);
  }

  /** The refusal of a request that is not to be reserved for. */
  ghost predicate RefusedEarly(deps: Deps, w: Surroundings, p: Fingerprint.Payload, within: bool, r: Reply)
    requires p.maxTokens >= 0
  {
    if !w.limiterUp then r == LimiterUnavailable
    else if !within then r.RateLimited?
    else PlanOutcome(deps, w, p) == Err(r)
  }

  /** The rate limiter, then the other checks. */
  method Judge(key: RateLimit.TeamKey, deps: Deps, w: Surroundings, p: Fingerprint.Payload)
    returns (r: Result<Plan, Reply>, ghost checked: seq<RateLimit.Entry>)
    requires p.maxTokens >= 1 && ProperCatalog(deps.catalog)
    requires key.Valid() && (key.history != [] ==> RateLimit.LastAt(key.history) <= w.limiterNow)
    modifies key
    ensures key.Valid() && old(key.history) <= checked
    ensures var within := WithinLimit(checked, key.limits, w);
            && (w.limiterUp ==> checked + [RateLimit.Entry(w.limiterNow, w.member, within)] <= key.history)
            && match r
               case Err(refusal) => RefusedEarly(deps, w, p, within, refusal)
               case Ok(plan) => w.limiterUp && within && PlanOutcome(deps, w, p) == r
                                && Executable(plan) && Supported(deps.registry, [plan.candidate])
  {
    var limited;
    limited, checked := LimitWithOthers(key, w);
    if limited.Some? {
      return Err(limited.value), checked;
    }
    r := PlanRequest(deps, w, p);
    PlansAreExecutable(deps, w, p);
  }

  /** This request's check among those of others before and after it. */
  method LimitWithOthers(key: RateLimit.TeamKey, w: Surroundings) returns (r: Option<Reply>, ghost checked: seq<RateLimit.Entry>)
    requires key.Valid() && (key.history != [] ==> RateLimit.LastAt(key.history) <= w.limiterNow)
    modifies key
    ensures key.Valid() && old(key.history) <= checked
    ensures !w.limiterUp ==> r == Some(LimiterUnavailable)
    ensures w.limiterUp ==>
              && checked + [RateLimit.Entry(w.limiterNow, w.member, r.None?)] <= key.history
              && (r.None? <==> WithinLimit(checked, key.limits, w))
              && (r.Some? ==> r.value.RateLimited?)
  {
    OtherChecks(key, Some(w.limiterNow));
    checked := key.history;
    r := CheckLimiter(key, w);
    OtherChecks(key, None);
  }

  /**
  create_chat_completion, from the replay lookup on. A key that has a row is answered from that
  row alone. Otherwise the request either changes nothing, or commits exactly one Reserve and at most
  one Settle, whatever other requests do in between. checked is the limiter history it was judged by.
  */
  method CreateChatCompletion(db: Database, key: RateLimit.TeamKey, clock: Clock, deps: Deps, req: ChatRequest, w: Surroundings)
    returns (r: Reply, ghost trace: Option<Trace>, ghost checked: seq<RateLimit.Entry>)
    requires Sound(db.tables) && req.payload.maxTokens >= 1 && ValidPolicy(deps.policy) && ProperCatalog(deps.catalog)
    requires key.Valid() && (key.history != [] ==> RateLimit.LastAt(key.history) <= w.limiterNow)
    requires AllWorking(clock, deps.registry)
    modifies db, key, clock, Breakers(deps.registry)
    ensures Sound(db.tables) && key.Valid() && AllWorking(clock, deps.registry)
    ensures old(key.history) <= checked
    ensures var hash := deps.hash(Fingerprint.FingerprintText(req.payload));
            if req.slot in old(db.tables).keys then
              var row := old(db.tables).keys[req.slot];
              && r == Answered(if row.hash != hash then Conflict else
                                 match row.status
                                 case Completed(snapshot) => Replay(snapshot)
                                 case Failed(errorCode) => PreviouslyFailed(errorCode)
                                 case Pending => if w.lookedUpAt < row.expiresAt then InProgress else ExpiredPending)
              && trace.None?
              && db.tables == old(db.tables) && key.history == old(key.history) && clock.now == old(clock.now)
            else
              var within := WithinLimit(checked, key.limits, w);
              && (w.limiterUp ==> checked + [RateLimit.Entry(w.limiterNow, w.member, within)] <= key.history)
              && NewRequest(deps, req, hash, w, within, r, trace, old(db.tables), db.tables)
  {
    var hash := deps.hash(Fingerprint.FingerprintText(req.payload));
    if req.slot in db.tables.keys {
      return Answered(Precheck(db.tables.keys[req.slot], hash, w.lookedUpAt)), None, key.history;
    }
    r, trace, checked := HandleNew(db, key, clock, deps, req, hash, w);
  }
}
