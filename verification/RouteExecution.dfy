/** Executing a route against live circuit breakers that other requests use at the same time. */
module RouteExecution {
  import opened Wrappers
  import opened Routing
  import opened Breaker

  /** The process's monotonic clock. */
  class Clock {
    var now: real

    constructor (now: real)
      ensures this.now == now
    {
      this.now := now;
    }
  }

  datatype Registration = Registration(models: set<string>, breaker: CircuitBreaker?)

  datatype RouteOutcome =
    | RouteSuccess(primary: Candidate, final: Candidate, fallbackUsed: bool, result: CompletionResult)
    | AllCandidatesFailed
    | Propagated(cause: Cause)
    | InvalidRoute(error: RoutingError)

  function Breakers(registry: map<string, Registration>): set<CircuitBreaker> {
    set p | p in registry && registry[p].breaker != null :: registry[p].breaker
  }

  ghost predicate Working(clock: Clock, b: CircuitBreaker)
    reads clock, b
  {
    b.Valid() && b.MayBeNow(clock.now)
  }

  /**
  One candidate's dealings with its breaker: its fresh run, whether it was admitted, and what it
  reported, if anything, each with the place of the event in the breaker's history.
  */
  datatype Consultation = Consultation(breaker: CircuitBreaker, run: nat, admitted: bool, askedAt: nat, report: Option<ReportedAs>)
  datatype ReportedAs = ReportedAs(succeeded: bool, at: nat)

  predicate IsAsk(e: Event, run: nat, admitted: bool) {
    e.run == run && e.Ask? && e.allowed == admitted
  }

  predicate IsReport(e: Event, run: nat, succeeded: bool) {
    e.run == run && if succeeded then e.Success? else e.Failure?
  }

  /** The breaker's history has it: the first event of its run, and its report after that. */
  ghost predicate Witnessed(x: Consultation)
    reads x.breaker
  {
    var h := x.breaker.history;
    && x.askedAt < |h| && IsAsk(h[x.askedAt], x.run, x.admitted) && x.run !in Runs(h[..x.askedAt])
    && (x.report.Some? ==> x.askedAt < x.report.value.at < |h| && IsReport(h[x.report.value.at], x.run, x.report.value.succeeded))
  }

  /**
  What a coroutine may rely on across an await: others keep the breaker valid, only extend its
  history, and never report for this request's run. Callers see nothing but this contract.
  */
  method Await(b: CircuitBreaker, clock: Clock, ghost mine: set<nat>)
    requires Working(clock, b)
    modifies b, clock
    ensures Working(clock, b) && clock.now >= old(clock.now)
    ensures old(b.history) <= b.history
    ensures forall run | run in mine && run in old(Outstanding(b.history)) :: run in Outstanding(b.history)
  {
  }

  ghost predicate AllWitnessed(mine: seq<Consultation>)
    reads set i | 0 <= i < |mine| :: mine[i].breaker
  {
    forall i | 0 <= i < |mine| :: Witnessed(mine[i])
  }

  /** Consultations of one breaker are different events, in order. */
  predicate Ordered(mine: seq<Consultation>) {
    forall i, j | 0 <= i < j < |mine| && mine[i].breaker == mine[j].breaker :: mine[i].askedAt < mine[j].askedAt
  }

  /** ... so no two of them share a run. */
  lemma RunsDiffer(mine: seq<Consultation>, i: nat, j: nat)
    requires AllWitnessed(mine) && Ordered(mine) && i < j < |mine| && mine[i].breaker == mine[j].breaker
    ensures mine[i].run != mine[j].run
  {
    var h := mine[j].breaker.history;
    assert Witnessed(mine[i]) && Witnessed(mine[j]);
    assert h[..mine[j].askedAt][mine[i].askedAt].run in Runs(h[..mine[j].askedAt]);
  }

  /** What a history witnesses it still witnesses when it has grown. */
  twostate lemma StillWitnessed(x: Consultation)
    requires old(Witnessed(x)) && old(x.breaker.history) <= x.breaker.history
    ensures Witnessed(x)
  {
    assert x.breaker.history[..x.askedAt] == old(x.breaker.history)[..x.askedAt];
  }

  /** Histories only grow. */
  twostate predicate Grown(registry: map<string, Registration>)
    reads Breakers(registry)
  {
    forall b | b in Breakers(registry) :: old(b.history) <= b.history
  }

  /** Every consultation from the n-th on is new since the old state. */
  twostate predicate NewSince(registry: map<string, Registration>, new mine: seq<Consultation>, n: nat) {
    forall b | b in Breakers(registry) :: forall j | n <= j < |mine| && mine[j].breaker == b :: old(|b.history|) <= mine[j].askedAt
  }

  /** Registry checks; the first offending candidate decides the error. */
  method ValidateRouteAgainstRegistry(registry: map<string, Registration>, route: seq<Candidate>)
    returns (r: Result<(), RoutingError>)
    ensures r.Ok? <==> forall i | 0 <= i < |route| :: route[i].provider in registry && route[i].model in registry[route[i].provider].models
    ensures r.Ok? <==> Supported(registry, route)
    ensures r.Err? ==> exists i :: 0 <= i < |route|
                             && (forall j | 0 <= j < i :: route[j].provider in registry && route[j].model in registry[route[j].provider].models)
                             && r.error == (if route[i].provider in registry then UnsupportedModel else UnknownProvider)
                             && !(route[i].provider in registry && route[i].model in registry[route[i].provider].models)
  {
    for i := 0 to |route|
      invariant forall j | 0 <= j < i :: route[j].provider in registry && route[j].model in registry[route[j].provider].models
    {
      if route[i].provider !in registry {
        return Err(UnknownProvider);
      }
      if route[i].model !in registry[route[i].provider].models {
        return Err(UnsupportedModel);
      }
    }
    return Ok(());
  }

  predicate Supported(registry: map<string, Registration>, route: seq<Candidate>) {
    forall i | 0 <= i < |route| ::
      route[i].provider in registry && route[i].model in registry[route[i].provider].models
  }

  /** One call of execute_route: the attempt log it grows, the sleeps it takes, the adapter calls it makes. */
  class RouteRun {
    var attempts: seq<AttemptRecord>
    var sleeps: seq<nat>
    var calls: nat

    constructor ()
      ensures attempts == [] && sleeps == [] && calls == 0
    {
      attempts, sleeps, calls := [], [], 0;
    }

    /** The try statement around one adapter call: what it records, and how it ends the run, if it does. */
    method Attempt(c: Candidate, k: nat, reply: Reply) returns (ending: Option<Ending>)
      modifies this`attempts, this`calls
      ensures attempts == old(attempts) + if Propagates(c, reply) then [] else [RecordOf(c, k, reply)]
      ensures calls == old(calls) + 1
      ensures ending == if Retries(reply) then None else Some(EndingOf(c, reply))
    {
      calls := calls + 1;
      match reply {
        case TimedOut =>
          attempts := attempts + [AttemptRecord(c, k, FAILURE, Some(TIMEOUT))];
          return None;
        case NonRetryableError =>
          attempts := attempts + [AttemptRecord(c, k, FAILURE, Some(NON_RETRYABLE_PROVIDER_ERROR))];
          return Some(Exhausted);
        case RetryableError =>
          attempts := attempts + [AttemptRecord(c, k, FAILURE, Some(RETRYABLE_PROVIDER_ERROR))];
          return None;
        case BareProviderError =>
          attempts := attempts + [AttemptRecord(c, k, FAILURE, Some(NON_RETRYABLE_PROVIDER_ERROR))];
          return Some(Exhausted);
        case OtherException =>
          return Some(Raised(Unexpected));
        case Cancelled =>
          return Some(Raised(Cancellation));
        case Malformed =>
          return Some(Raised(ContractViolation));
        case Completed(result) =>
          if !HonoursContract(c, result) {
            return Some(Raised(ContractViolation));
          }
          attempts := attempts + [AttemptRecord(c, k, SUCCESS, None)];
          return Some(Finished(result));
      }
    }

    /** Backs off after attempt k, which must not be the last. */
    method Sleep(p: RetryPolicy, k: nat, draw: nat -> nat) returns (ms: nat)
      requires 1 <= k < p.maxAttempts
      modifies this`sleeps
      ensures sleeps == old(sleeps) + [ms]
      ensures ComputeBackoffMs(p, k, draw(k)) == Ok(ms)
    {
      ms := ComputeBackoffMs(p, k, draw(k)).value;
      sleeps := sleeps + [ms];
    }

    /** Retries one candidate. It stops at attempt k, having slept exactly once between attempts. */
    method RunCandidate(p: RetryPolicy, c: Candidate, reply: nat -> Reply, draw: nat -> nat)
      returns (ending: Ending, k: nat, ghost slept: seq<nat>)
      requires ValidPolicy(p)
      modifies this
      ensures Stops(p, reply, k)
      ensures ending == EndingOf(c, reply(k))
      ensures attempts == old(attempts) + Block(c, reply, k)
      ensures calls == old(calls) + k
      ensures sleeps == old(sleeps) + slept && |slept| == k - 1 && SleepsBetween(p, draw, slept)
    {
      k, slept := 1, [];
      while true
        invariant 1 <= k <= p.maxAttempts
        invariant forall n | 1 <= n < k :: Retries(reply(n))
        invariant attempts == old(attempts) + Records(c, reply, k - 1)
        invariant calls == old(calls) + k - 1
        invariant sleeps == old(sleeps) + slept && |slept| == k - 1
        invariant SleepsBetween(p, draw, slept)
        decreases p.maxAttempts - k
      {
        var ended := Attempt(c, k, reply(k));
        RecordsGrow(old(attempts), c, reply, k);
        if ended.Some? {
          return ended.value, k, slept;
        }
        if k == p.maxAttempts {
          return Exhausted, k, slept;
        }
        var ms := Sleep(p, k, draw);
        slept := slept + [ms];
        k := k + 1;
      }
    }

    /** One candidate with a breaker: skipped if it refuses (k = 0), else run to its end and reported once. */
    method TryGuarded(b: CircuitBreaker, clock: Clock, p: RetryPolicy, c: Candidate, reply: nat -> Reply, draw: nat -> nat)
      returns (ending: Ending, k: nat, ghost x: Consultation)
      requires ValidPolicy(p) && Working(clock, b)
      modifies this, clock, b
      ensures clock.now >= old(clock.now) && Working(clock, b) && old(b.history) <= b.history
      ensures k == 0 ==> ending == Exhausted
      ensures k > 0 ==> Stops(p, reply, k) && ending == EndingOf(c, reply(k))
      ensures attempts == old(attempts) + if k == 0 then [Skip(c)] else Block(c, reply, k)
      ensures calls == old(calls) + k
      ensures Witnessed(x) && ConsultationIs(x, b, k, ending)
      ensures old(|b.history|) <= x.askedAt && x.run !in Runs(old(b.history))
      ensures ending.Raised? ==> x.run in Outstanding(b.history)
    {
      var allowed;
      ghost var run;
      allowed, run := Consult(b, clock);
      ghost var askedAt := |b.history| - 1;
      if !allowed {
        attempts := attempts + [Skip(c)];
        return Exhausted, 0, Consultation(b, run, false, askedAt, None);
      }
      ghost var asked := b.history;
      ghost var slept;
      ending, k, slept := RunCandidate(p, c, reply, draw);
      Conclude(b, clock, ending, run);
      assert b.history[..askedAt] == asked[..askedAt];
      x := Consultation(b, run, true, askedAt,
                        if ending.Raised? then None else Some(ReportedAs(ending.Finished?, |b.history| - 1)));
    }

    /** One candidate, with or without a breaker; a run an exception escaped from stays outstanding. */
    method TryCandidate(b: CircuitBreaker?, clock: Clock, p: RetryPolicy, c: Candidate, reply: nat -> Reply, draw: nat -> nat,
                        ghost earlier: seq<Consultation>)
      returns (ending: Ending, k: nat, ghost x: Option<Consultation>)
      requires ValidPolicy(p)
      requires b != null ==> Working(clock, b)
      requires AllWitnessed(earlier) && Ordered(earlier)
      modifies this, clock, b
      ensures clock.now >= old(clock.now)
      ensures b == null ==> k > 0
      ensures k == 0 ==> ending == Exhausted
      ensures k > 0 ==> Stops(p, reply, k) && ending == EndingOf(c, reply(k))
      ensures attempts == old(attempts) + if k == 0 then [Skip(c)] else Block(c, reply, k)
      ensures calls == old(calls) + k
      ensures b != null ==> Working(clock, b) && old(b.history) <= b.history
      ensures AllWitnessed(Consulted(earlier, x)) && Ordered(Consulted(earlier, x))
      ensures x.Some? <==> b != null
      ensures b != null ==> ConsultationIs(x.value, b, k, ending)
      ensures b != null ==> old(|b.history|) <= x.value.askedAt && x.value.run !in Runs(old(b.history))
      ensures b != null && ending.Raised? ==> x.value.run in Outstanding(b.history)
    {
      assert forall j | 0 <= j < |earlier| :: Witnessed(earlier[j]);
      if b == null {
        ghost var slept;
        ending, k, slept := RunCandidate(p, c, reply, draw);
        x := None;
      } else {
        ghost var guarded;
        ending, k, guarded := TryGuarded(b, clock, p, c, reply, draw);
        x := Some(guarded);
      }
      forall j | 0 <= j < |earlier|
        ensures Witnessed(earlier[j])
      {
        StillWitnessed(earlier[j]);
      }
    }

    /** One candidate, seen from the whole registry: only its own breaker is dealt with. */
    method TryRegistered(registry: map<string, Registration>, b: CircuitBreaker?, clock: Clock, p: RetryPolicy, c: Candidate,
                         reply: nat -> Reply, draw: nat -> nat, ghost earlier: seq<Consultation>)
      returns (ending: Ending, k: nat, ghost x: Option<Consultation>)
      requires ValidPolicy(p) && (b != null ==> b in Breakers(registry))
      requires AllWorking(clock, registry) && AllWitnessed(earlier) && Ordered(earlier)
      modifies this, clock, Breakers(registry)
      ensures AllWorking(clock, registry) && Grown(registry)
      ensures AllWitnessed(Consulted(earlier, x)) && Ordered(Consulted(earlier, x))
      ensures NewSince(registry, Consulted(earlier, x), |earlier|)
      ensures b == null ==> k > 0
      ensures k == 0 ==> ending == Exhausted
      ensures k > 0 ==> Stops(p, reply, k) && ending == EndingOf(c, reply(k))
      ensures attempts == old(attempts) + if k == 0 then [Skip(c)] else Block(c, reply, k)
      ensures calls == old(calls) + k
      ensures x.Some? <==> b != null
      ensures b != null ==> ConsultationIs(x.value, b, k, ending)
      ensures b != null && ending.Raised? ==> x.value.run in Outstanding(b.history)
    {
      ending, k, x := TryCandidate(b, clock, p, c, reply, draw, earlier);
    }

    /** The next candidate of a route that is still undecided; an outcome if it decides. */
    method TryNext(registry: map<string, Registration>, route: seq<Candidate>, p: RetryPolicy, clock: Clock,
                   world: World, draws: Draws, tried: seq<nat>, ghost earlier: seq<Consultation>,
                   ghost before: seq<AttemptRecord>, ghost spent: nat)
      returns (r: Option<RouteOutcome>, next: seq<nat>, ghost mine: seq<Consultation>, ghost escaped: nat)
      requires ValidPolicy(p) && Supported(registry, route) && |tried| < |route|
      requires AllCalled(registry, route, tried) && Undecided(p, route, world, tried)
      requires AllWorking(clock, registry) && AllWitnessed(earlier) && Ordered(earlier)
      requires ConsultsFit(registry, route, world, tried, earlier)
      requires attempts == before + Log(route, world, tried) && calls == spent + Calls(tried)
      modifies this, clock, Breakers(registry)
      ensures AllWorking(clock, registry) && AllWitnessed(mine) && Ordered(mine)
      ensures Grown(registry) && earlier <= mine && NewSince(registry, mine, |earlier|)
      ensures AllCalled(registry, route, next) && |next| == |tried| + 1
      ensures ConsultsFit(registry, route, world, next, mine)
      ensures attempts == before + Log(route, world, next) && calls == spent + Calls(next)
      ensures SoFar(p, route, world, next, r)
      ensures r.Some? && r.value.Propagated? ==> Escaped(BreakerOf(registry, route, |next|), escaped)
    {
      var i := |tried|;
      var c := route[i];
      var b := registry[c.provider].breaker;
      var ending, k;
      ghost var x;
      ending, k, x := TryRegistered(registry, b, clock, p, c, ReplyOf(world, i), DrawOf(draws, i), earlier);
      Progress(registry, route, p, world, tried, k, ending, earlier, x, before);
      mine := Consulted(earlier, x);
      escaped := if x.Some? then x.value.run else 0;
      next := tried + [k];
      r := OutcomeOf(route, i, ending);
    }

    /** The candidate loop of a validated route. */
    method TryInOrder(registry: map<string, Registration>, route: seq<Candidate>, p: RetryPolicy, clock: Clock,
                      world: World, draws: Draws)
      returns (decided: Option<RouteOutcome>, tried: seq<nat>, ghost mine: seq<Consultation>, ghost escaped: nat)
      requires ValidPolicy(p) && route != [] && Supported(registry, route)
      requires AllWorking(clock, registry)
      modifies this, clock, Breakers(registry)
      ensures AllWorking(clock, registry) && AllWitnessed(mine) && Ordered(mine)
      ensures Grown(registry) && NewSince(registry, mine, 0)
      ensures AllCalled(registry, route, tried) && ConsultsFit(registry, route, world, tried, mine)
      ensures decided.None? ==> |tried| == |route|
      ensures attempts == old(attempts) + Log(route, world, tried)
      ensures calls == old(calls) + Calls(tried)
      ensures SoFar(p, route, world, tried, decided)
      ensures decided.Some? && decided.value.Propagated? ==> Escaped(BreakerOf(registry, route, |tried|), escaped)
    {
      decided, tried, mine, escaped := None, [], [], 0;
      while decided.None? && |tried| < |route|
        invariant |tried| <= |route|
        invariant attempts == old(attempts) + Log(route, world, tried)
        invariant calls == old(calls) + Calls(tried)
        invariant AllCalled(registry, route, tried) && ConsultsFit(registry, route, world, tried, mine)
        invariant SoFar(p, route, world, tried, decided)
        invariant AllWorking(clock, registry) && AllWitnessed(mine) && Ordered(mine)
        invariant Grown(registry) && NewSince(registry, mine, 0)
        invariant decided.Some? && decided.value.Propagated? ==> Escaped(BreakerOf(registry, route, |tried|), escaped)
        decreases |route| - |tried|
      {
        decided, tried, mine, escaped := TryNext(registry, route, p, clock, world, draws, tried, mine,
                                                   old(attempts), old(calls));
      }
    }

    /**
    Tries candidates in order until one decides the route. world and draws answer each attempt;
    tried[i] is the number of adapter calls candidate i got, 0 when its breaker refused it.
    mine lists what each candidate did with its breaker, by events new since the call and runs all
    different; a run an exception escaped from is outstanding.
    */
    method ExecuteRoute(registry: map<string, Registration>, route: seq<Candidate>, p: RetryPolicy,
                        clock: Clock, world: World, draws: Draws)
      returns (r: RouteOutcome, tried: seq<nat>, ghost mine: seq<Consultation>, ghost escaped: nat)
      requires ValidPolicy(p) && route != []
      requires AllWorking(clock, registry)
      modifies this, clock, Breakers(registry)
      ensures AllWorking(clock, registry) && AllWitnessed(mine) && Ordered(mine)
      ensures Grown(registry) && NewSince(registry, mine, 0)
      ensures r.InvalidRoute? <==> !Supported(registry, route)
      ensures AllCalled(registry, route, tried) && ConsultsFit(registry, route, world, tried, mine)
      ensures attempts == old(attempts) + Log(route, world, tried)
      ensures calls == old(calls) + Calls(tried)
      ensures forall i | 0 <= i < |tried| ::
                tried[i] == 0 ==> route[i].provider in registry && registry[route[i].provider].breaker != null
      ensures OutcomeIs(p, route, world, tried, r)
      ensures r.Propagated? ==> Escaped(BreakerOf(registry, route, |tried|), escaped)
    {
      var valid := ValidateRouteAgainstRegistry(registry, route);
      if valid.Err? {
        return InvalidRoute(valid.error), [], [], 0;
      }
      var decided;
      decided, tried, mine, escaped := TryInOrder(registry, route, p, clock, world, draws);
      r := if decided.Some? then decided.value else AllCandidatesFailed;
    }
  }

  function Consulted(earlier: seq<Consultation>, x: Option<Consultation>): seq<Consultation> {
    if x.None? then earlier else earlier + [x.value]
  }

  /** What a candidate that got k calls and ended so did with its breaker. */
  predicate ConsultationIs(x: Consultation, b: CircuitBreaker, k: nat, ending: Ending) {
    && x.breaker == b && x.admitted == (k > 0)
    && (x.report.None? <==> k == 0 || ending.Raised?)
    && (x.report.Some? ==> x.report.value.succeeded == ending.Finished?)
  }

  /**
  One consultation per tried candidate with a breaker, in route order and with its own breaker:
  refused exactly if it was skipped, and a report unless an exception escaped, of success exactly
  if it answered.
  */
  ghost predicate ConsultsFit(registry: map<string, Registration>, route: seq<Candidate>, world: World, tried: seq<nat>,
                              mine: seq<Consultation>)
    requires |tried| <= |route|
  {
    if tried == [] then mine == []
    else
      var n := |tried| - 1;
      if !MaySkip(registry, route[n]) then ConsultsFit(registry, route, world, tried[..n], mine)
      else
        && mine != []
        && var last := mine[|mine| - 1];
        && last.breaker == registry[route[n].provider].breaker
        && last.admitted == (tried[n] > 0)
        && (last.report.None? <==> tried[n] == 0 || Propagates(route[n], world(n, tried[n])))
        && (last.report.Some? ==> last.report.value.succeeded == Succeeds(route[n], world(n, tried[n])))
        && ConsultsFit(registry, route, world, tried[..n], mine[..|mine| - 1])
  }

  lemma ConsultsGrow(registry: map<string, Registration>, route: seq<Candidate>, world: World, tried: seq<nat>, k: nat,
                     earlier: seq<Consultation>, ending: Ending, x: Option<Consultation>)
    requires |tried| < |route| && ConsultsFit(registry, route, world, tried, earlier) && route[|tried|].provider in registry
    requires k > 0 ==> ending == EndingOf(route[|tried|], world(|tried|, k))
    requires var b := registry[route[|tried|].provider].breaker;
             (x.Some? <==> b != null) && (b != null ==> ConsultationIs(x.value, b, k, ending))
    ensures ConsultsFit(registry, route, world, tried + [k], Consulted(earlier, x))
  {
    assert (tried + [k])[..|tried|] == tried;
    if x.Some? {
      assert (earlier + [x.value])[..|earlier|] == earlier;
    }
  }

  /** Undecided, or decided by the last candidate tried. */
  ghost predicate SoFar(p: RetryPolicy, route: seq<Candidate>, world: World, tried: seq<nat>, r: Option<RouteOutcome>)
    requires |tried| <= |route| && route != []
  {
    match r
    case None => Undecided(p, route, world, tried)
    case Some(outcome) => (outcome.RouteSuccess? || outcome.Propagated?) && OutcomeIs(p, route, world, tried, outcome)
  }

  /** The breaker, if any, of the last of the first n candidates. */
  function BreakerOf(registry: map<string, Registration>, route: seq<Candidate>, n: nat): CircuitBreaker? {
    if 0 < n <= |route| && route[n - 1].provider in registry then registry[route[n - 1].provider].breaker else null
  }

  /** The run an exception escaped from never reported, if there was a breaker to report to. */
  ghost predicate Escaped(b: CircuitBreaker?, run: nat)
    reads b
  {
    b != null ==> run in Outstanding(b.history)
  }

  ghost predicate AllWorking(clock: Clock, registry: map<string, Registration>)
    reads clock, Breakers(registry)
  {
    forall b | b in Breakers(registry) :: Working(clock, b)
  }

  /** A candidate without a breaker is never skipped. */
  predicate AllCalled(registry: map<string, Registration>, route: seq<Candidate>, tried: seq<nat>) {
    |tried| <= |route| && forall i | 0 <= i < |tried| :: tried[i] > 0 || MaySkip(registry, route[i])
  }

  predicate MaySkip(registry: map<string, Registration>, c: Candidate) {
    c.provider in registry && registry[c.provider].breaker != null
  }

  lemma CalledGrows(registry: map<string, Registration>, route: seq<Candidate>, tried: seq<nat>, k: nat)
    requires AllCalled(registry, route, tried) && |tried| < |route|
    requires k > 0 || MaySkip(registry, route[|tried|])
    ensures AllCalled(registry, route, tried + [k])
  {
  }

  lemma RecordsGrow(before: seq<AttemptRecord>, c: Candidate, reply: nat -> Reply, k: nat)
    requires k >= 1
    ensures before + Records(c, reply, k) == before + Records(c, reply, k - 1) + [RecordOf(c, k, reply(k))]
  {
  }

  /** What trying one more candidate does to the log. */
  lemma LogGrows(before: seq<AttemptRecord>, route: seq<Candidate>, world: World, tried: seq<nat>, k: nat)
    requires |tried| < |route|
    ensures before + Log(route, world, tried + [k]) == before + Log(route, world, tried) + BlockOf(route, world, |tried|, k)
    ensures Calls(tried + [k]) == Calls(tried) + k
  {
    assert (tried + [k])[..|tried|] == tried;
  }

  /** How candidate i's ending decides the route, if it does. */
  function OutcomeOf(route: seq<Candidate>, i: nat, ending: Ending): Option<RouteOutcome>
    requires i < |route|
  {
    match ending
    case Raised(cause) => Some(Propagated(cause))
    case Finished(result) => Some(RouteSuccess(route[0], route[i], i > 0, result))
    case Exhausted => None
  }

  /** ... and to whether the route is decided. */
  lemma Advance(p: RetryPolicy, route: seq<Candidate>, world: World, tried: seq<nat>, k: nat, ending: Ending)
    requires Undecided(p, route, world, tried) && |tried| < |route|
    requires k == 0 ==> ending == Exhausted
    requires k > 0 ==> Stops(p, ReplyOf(world, |tried|), k) && ending == EndingOf(route[|tried|], world(|tried|, k))
    ensures SoFar(p, route, world, tried + [k], OutcomeOf(route, |tried|, ending))
  {
    var next := tried + [k];
    assert next[..|tried|] == tried;
    forall i | 0 <= i < |tried|
      ensures Failed(p, route[i], world, i, next[i])
    {
      assert Failed(p, route[i], world, i, tried[i]);
    }
  }

  /** All that trying one more candidate does to what is known of the route. */
  lemma Progress(registry: map<string, Registration>, route: seq<Candidate>, p: RetryPolicy, world: World, tried: seq<nat>, k: nat,
                 ending: Ending, earlier: seq<Consultation>, x: Option<Consultation>, before: seq<AttemptRecord>)
    requires AllCalled(registry, route, tried) && |tried| < |route| && route[|tried|].provider in registry
    requires Undecided(p, route, world, tried) && ConsultsFit(registry, route, world, tried, earlier)
    requires k == 0 ==> ending == Exhausted && registry[route[|tried|].provider].breaker != null
    requires k > 0 ==> Stops(p, ReplyOf(world, |tried|), k) && ending == EndingOf(route[|tried|], world(|tried|, k))
    requires var b := registry[route[|tried|].provider].breaker;
             (x.Some? <==> b != null) && (b != null ==> ConsultationIs(x.value, b, k, ending))
    ensures AllCalled(registry, route, tried + [k])
    ensures ConsultsFit(registry, route, world, tried + [k], Consulted(earlier, x))
    ensures before + Log(route, world, tried + [k]) == before + Log(route, world, tried) + BlockOf(route, world, |tried|, k)
    ensures Calls(tried + [k]) == Calls(tried) + k
    ensures SoFar(p, route, world, tried + [k], OutcomeOf(route, |tried|, ending))
    ensures BreakerOf(registry, route, |tried + [k]|) == registry[route[|tried|].provider].breaker
    ensures earlier <= Consulted(earlier, x) && |tried + [k]| == |tried| + 1
  {
    Advance(p, route, world, tried, k, ending);
    LogGrows(before, route, world, tried, k);
    CalledGrows(registry, route, tried, k);
    ConsultsGrow(registry, route, world, tried, k, earlier, ending, x);
  }

  /** Jitter drawn after attempt n of candidate i. */
  type Draws = (nat, nat) -> nat

  function DrawOf(draws: Draws, i: nat): nat -> nat {
    (n: nat) => draws(i, n)
  }

  /** What each outcome of a route says about the replies it got. */
  ghost predicate OutcomeIs(p: RetryPolicy, route: seq<Candidate>, world: World, tried: seq<nat>, r: RouteOutcome)
    requires |tried| <= |route| && route != []
  {
    match r
    case InvalidRoute(_) => tried == []
    case AllCandidatesFailed => Undecided(p, route, world, tried) && |tried| == |route|
    case RouteSuccess(primary, final, fallbackUsed, result) =>
      && DecidedLast(p, route, world, tried)
      && Succeeds(route[|tried| - 1], world(|tried| - 1, tried[|tried| - 1]))
      && primary == route[0] && final == route[|tried| - 1]
      && (fallbackUsed <==> |tried| > 1)
      && result == world(|tried| - 1, tried[|tried| - 1]).result
    case Propagated(cause) =>
      && DecidedLast(p, route, world, tried)
      && Propagates(route[|tried| - 1], world(|tried| - 1, tried[|tried| - 1]))
      && cause == CauseOf(world(|tried| - 1, tried[|tried| - 1]))
  }

  /** should_allow for a new run, some time later. */
  method Consult(b: CircuitBreaker, clock: Clock) returns (allowed: bool, ghost run: nat)
    requires Working(clock, b)
    modifies b, clock
    ensures Working(clock, b) && clock.now >= old(clock.now)
    ensures old(b.history) < b.history && IsAsk(b.history[|b.history| - 1], run, allowed)
    ensures run !in Runs(old(b.history)) && run !in Runs(b.history[..|b.history| - 1])
    ensures allowed ==> run in Outstanding(b.history)
  {
    ghost var entry := b.history;
    Await(b, clock, {});
    assert forall i | 0 <= i < |entry| :: b.history[i] == entry[i];
    run := FreshRun(Runs(b.history));
    ghost var before := b.history;
    allowed := b.ShouldAllow(clock.now, run);
    Extend(b.config, before, Ask(run, clock.now, allowed));
  }

  /** The bookkeeping after a candidate run, which an exception skips. */
  method Conclude(b: CircuitBreaker, clock: Clock, ending: Ending, ghost run: nat)
    requires Working(clock, b) && run in Outstanding(b.history)
    modifies b, clock
    ensures Working(clock, b) && clock.now >= old(clock.now)
    ensures old(b.history) <= b.history
    ensures if ending.Raised? then run in Outstanding(b.history)
            else |old(b.history)| < |b.history| && IsReport(b.history[|b.history| - 1], run, ending.Finished?)
  {
    Await(b, clock, {run});
    if !ending.Raised? {
      Inform(b, clock, ending.Finished?, run);
    }
  }

  /** record_success or record_failure now, for a run that is in flight. */
  method Inform(b: CircuitBreaker, clock: Clock, succeeded: bool, ghost run: nat)
    requires Working(clock, b) && run in Outstanding(b.history)
    modifies b
    ensures Working(clock, b)
    ensures b.history == old(b.history) + [if succeeded then Success(run, clock.now) else Failure(run, clock.now)]
  {
    ghost var before := b.history;
    if succeeded {
      b.RecordSuccess(clock.now, run);
      Extend(b.config, before, Success(run, clock.now));
    } else {
      b.RecordFailure(clock.now, run);
      Extend(b.config, before, Failure(run, clock.now));
    }
  }

  // ---------------------------------------------------------------- what a route tells

  /**
  What an outcome says in the replies alone. The candidates before the last one tried were skipped, or
  used up their attempts, or were rejected; so was the last, unless it answered as itself with sane
  counts, which is success, or something else escaped, which propagates.
  */
  lemma OutcomeTells(p: RetryPolicy, route: seq<Candidate>, world: World, tried: seq<nat>, r: RouteOutcome)
    requires |tried| <= |route| && route != [] && OutcomeIs(p, route, world, tried, r)
    ensures r.InvalidRoute? || (tried != [] && (r.AllCandidatesFailed? ==> |tried| == |route|))
    ensures forall i | 0 <= i < |tried| && (i < |tried| - 1 || r.AllCandidatesFailed?) ::
              || tried[i] == 0
              || (world(i, tried[i]) == TimedOut && tried[i] == p.maxAttempts)
              || (world(i, tried[i]) == RetryableError && tried[i] == p.maxAttempts)
              || world(i, tried[i]) == NonRetryableError
              || world(i, tried[i]) == BareProviderError
    ensures forall i, n | 0 <= i < |tried| && 1 <= n < tried[i] ::
              tried[i] <= p.maxAttempts && (world(i, n) == TimedOut || world(i, n) == RetryableError)
    ensures r.RouteSuccess? ==>
              var last := |tried| - 1;
              && r.primary == route[0] && r.final == route[last] && (r.fallbackUsed <==> |tried| > 1)
              && tried[last] > 0 && world(last, tried[last]) == Completed(r.result)
              && r.result.provider == route[last].provider && r.result.model == route[last].model
              && r.result.promptTokens >= 0 && r.result.completionTokens >= 0 && r.result.latencyMs >= 0
    ensures r.Propagated? ==>
              var last := |tried| - 1;
              && tried[last] > 0
              && match world(last, tried[last])
                 case Cancelled => r.cause == Cancellation
                 case OtherException => r.cause == Unexpected
                 case Malformed => r.cause == ContractViolation
                 case Completed(x) =>
                   && r.cause == ContractViolation
                   && (x.provider != route[last].provider || x.model != route[last].model
                       || x.promptTokens < 0 || x.completionTokens < 0 || x.latencyMs < 0)
                 case _ => false
  {
    forall i | 0 <= i < |tried|
      ensures i < |tried| - 1 || r.AllCandidatesFailed? ==> Routing.Failed(p, route[i], world, i, tried[i])
      ensures tried[i] == 0 || Stops(p, ReplyOf(world, i), tried[i])
    {
      if i < |tried| - 1 && !r.AllCandidatesFailed? {
        assert tried[i] == tried[..|tried| - 1][i];
      }
    }
    forall i, n | 0 <= i < |tried| && 1 <= n < tried[i]
      ensures tried[i] <= p.maxAttempts && (world(i, n) == TimedOut || world(i, n) == RetryableError)
    {
      EndingTells(p, route[i], ReplyOf(world, i), tried[i]);
      assert ReplyOf(world, i)(n) == world(i, n);
    }
  }

  /** What consultation x says of a candidate that got k calls, the last one answered by reply, in the breaker's own history. */
  ghost predicate Reported(x: Consultation, c: Candidate, k: nat, reply: Reply)
    reads x.breaker
  {
    var h := x.breaker.history;
    && x.askedAt < |h| && h[x.askedAt].Ask? && h[x.askedAt].run == x.run && (h[x.askedAt].allowed <==> k > 0)
    && var answered := reply.Completed? && reply.result.provider == c.provider && reply.result.model == c.model
                       && reply.result.promptTokens >= 0 && reply.result.completionTokens >= 0 && reply.result.latencyMs >= 0;
    && var failed := reply == TimedOut || reply == RetryableError || reply == NonRetryableError || reply == BareProviderError;
    && (x.report.Some? <==> k > 0 && (answered || failed))
    && (x.report.Some? ==>
          && x.report.value.at < |h| && h[x.report.value.at].run == x.run
          && if answered then h[x.report.value.at].Success? else h[x.report.value.at].Failure?)
  }

  /** Every candidate with a breaker has its consultation: asked once, told of an answer as a success and of any failure as one. */
  lemma {:induction false} ConsultationTells(registry: map<string, Registration>, route: seq<Candidate>, world: World, tried: seq<nat>,
                                             mine: seq<Consultation>, i: nat)
    requires i < |tried| <= |route| && ConsultsFit(registry, route, world, tried, mine) && AllWitnessed(mine)
    requires route[i].provider in registry && registry[route[i].provider].breaker != null
    ensures exists j :: 0 <= j < |mine| && mine[j].breaker == registry[route[i].provider].breaker
                        && Reported(mine[j], route[i], tried[i], world(i, tried[i]))
    decreases |tried|
  {
    var n := |tried| - 1;
    if i == n {
      assert Witnessed(mine[|mine| - 1]);
      assert Reported(mine[|mine| - 1], route[i], tried[i], world(i, tried[i]));
    } else {
      var rest := if MaySkip(registry, route[n]) then mine[..|mine| - 1] else mine;
      assert forall j | 0 <= j < |rest| :: rest[j] == mine[j] && Witnessed(mine[j]);
      ConsultationTells(registry, route, world, tried[..n], rest, i);
      var j :| 0 <= j < |rest| && rest[j].breaker == registry[route[i].provider].breaker
               && Reported(rest[j], route[i], tried[..n][i], world(i, tried[..n][i]));
      assert Reported(mine[j], route[i], tried[i], world(i, tried[i]));
    }
  }
}
