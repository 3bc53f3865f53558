/** Ordered fallback routing: per-candidate retries with backoff, the attempt log, and the breaker bookkeeping. */
module Routing {
  import opened Wrappers
  import Breaker

  datatype RoutingError =
    | InvalidPolicy
    | InvalidAttempt
    | EmptyRoute
    | TooManyCandidates
    | DuplicateCandidate
    | UnknownProvider
    | UnsupportedModel

  const MAX_ATTEMPTS: nat := 10
  const MAX_CANDIDATES: nat := 10
  const MAX_BACKOFF_MS: nat := 60_000

  // ---------------------------------------------------------------- backoff

  datatype RetryPolicy = RetryPolicy(maxAttempts: nat, baseBackoffMs: nat, maxBackoffMs: nat, jitter: bool)

  predicate ValidPolicy(p: RetryPolicy) {
    1 <= p.maxAttempts <= MAX_ATTEMPTS && p.baseBackoffMs <= p.maxBackoffMs <= MAX_BACKOFF_MS
  }

  function Pow2(n: nat): nat {
    if n == 0 then 1 else 2 * Pow2(n - 1)
  }

  function Capped(p: RetryPolicy, attempt: nat): nat
    requires attempt >= 1
  {
    var raw := Exponential(p, attempt - 1);
    if raw <= p.maxBackoffMs then raw else p.maxBackoffMs
  }

  /** draw stands for whatever randint(0, capped) returns. */
  function ComputeBackoffMs(p: RetryPolicy, attempt: nat, draw: nat): (r: Result<nat, RoutingError>)
    ensures r.Ok? <==> 1 <= attempt < p.maxAttempts
    ensures r.Err? ==> r.error == InvalidAttempt
  {
    if attempt < 1 || attempt >= p.maxAttempts then Err(InvalidAttempt)
    else if p.jitter && Capped(p, attempt) > 0 then Ok(if draw <= Capped(p, attempt) then draw else Capped(p, attempt))
    else Ok(Capped(p, attempt))
  }

  function Total(sleeps: seq<nat>): nat {
    if sleeps == [] then 0 else Total(sleeps[..|sleeps| - 1]) + sleeps[|sleeps| - 1]
  }

  /** The sleeps between attempts 1..k of one candidate run. */
  ghost predicate SleepsBetween(p: RetryPolicy, draw: nat -> nat, sleeps: seq<nat>) {
    forall i | 0 <= i < |sleeps| :: ComputeBackoffMs(p, i + 1, draw(i + 1)) == Ok(sleeps[i])
  }

  /** base * 2^n, the uncapped sleep after attempt n + 1. */
  function Exponential(p: RetryPolicy, n: nat): nat {
    p.baseBackoffMs * Pow2(n)
  }

  lemma ExponentialDoubles(p: RetryPolicy, n: nat)
    ensures Exponential(p, n + 1) == Exponential(p, n) + Exponential(p, n)
  {
  }

  /** n attempts sleep n-1 times, in all at most base * (2^(n-1) - 1). */
  lemma {:induction false} BackoffIsBelowDoubling(p: RetryPolicy, draw: nat -> nat, sleeps: seq<nat>)
    requires SleepsBetween(p, draw, sleeps)
    ensures Total(sleeps) + p.baseBackoffMs <= Exponential(p, |sleeps|)
  {
    if sleeps == [] {
      assert Pow2(0) == 1;
    } else {
      var n := |sleeps| - 1;
      BackoffIsBelowDoubling(p, draw, sleeps[..n]);
      ExponentialDoubles(p, n);
      assert sleeps[n] <= Capped(p, n + 1) <= Exponential(p, n);
    }
  }

  /** ... and at most (n-1) * max_backoff. */
  lemma {:induction false} BackoffIsBelowCap(p: RetryPolicy, draw: nat -> nat, sleeps: seq<nat>)
    requires SleepsBetween(p, draw, sleeps)
    ensures Total(sleeps) <= |sleeps| * p.maxBackoffMs
  {
    if sleeps != [] {
      var n := |sleeps| - 1;
      BackoffIsBelowCap(p, draw, sleeps[..n]);
      OneMoreTime(n, p.maxBackoffMs);
    }
  }

  lemma OneMoreTime(n: nat, m: nat)
    ensures (n + 1) * m == n * m + m
  {
  }

  /** Without jitter a later sleep is never shorter. */
  lemma {:induction false} BackoffGrows(p: RetryPolicy, i: nat, j: nat)
    requires 1 <= i <= j
    ensures Capped(p, i) <= Capped(p, j)
    decreases j
  {
    if i < j {
      BackoffGrows(p, i, j - 1);
      ExponentialDoubles(p, j - 2);
    }
  }

  lemma SleepsGrow(p: RetryPolicy, draw: nat -> nat, sleeps: seq<nat>)
    requires SleepsBetween(p, draw, sleeps) && !p.jitter
    ensures forall i, j | 0 <= i <= j < |sleeps| :: sleeps[i] <= sleeps[j]
  {
    forall i, j | 0 <= i <= j < |sleeps|
      ensures sleeps[i] <= sleeps[j]
    {
      BackoffGrows(p, i + 1, j + 1);
    }
  }

  /** Without jitter the sleep after attempt n is base * 2^(n-1), or the cap if that is more. */
  lemma SleepIsCappedPower(p: RetryPolicy, n: nat, draw: nat)
    requires 1 <= n < p.maxAttempts && !p.jitter
    ensures ComputeBackoffMs(p, n, draw) ==
              Ok(if p.baseBackoffMs * Pow2(n - 1) <= p.maxBackoffMs then p.baseBackoffMs * Pow2(n - 1) else p.maxBackoffMs)
  {
  }

  /** The first sleep is the base, each next one twice the one before, and none is above the cap. */
  lemma SleepsDouble(p: RetryPolicy, draw: nat -> nat, sleeps: seq<nat>)
    requires SleepsBetween(p, draw, sleeps) && !p.jitter
    ensures forall i | 0 <= i < |sleeps| ::
              var next := if i == 0 then p.baseBackoffMs else sleeps[i - 1] + sleeps[i - 1];
              sleeps[i] == if next <= p.maxBackoffMs then next else p.maxBackoffMs
  {
    forall i | 0 <= i < |sleeps|
      ensures var next := if i == 0 then p.baseBackoffMs else sleeps[i - 1] + sleeps[i - 1];
              sleeps[i] == if next <= p.maxBackoffMs then next else p.maxBackoffMs
    {
      if i == 0 {
        assert Exponential(p, 0) == p.baseBackoffMs;
      } else {
        ExponentialDoubles(p, i - 1);
        assert sleeps[i - 1] == Capped(p, i);
      }
    }
  }

  /** With jitter a sleep is what was drawn, which is from zero to what it would be without. */
  lemma JitterOnlyShortens(p: RetryPolicy, n: nat, draw: nat)
    requires p.jitter && 1 <= n < p.maxAttempts
    ensures var full := ComputeBackoffMs(p.(jitter := false), n, draw).value;
            ComputeBackoffMs(p, n, draw) == Ok(if draw <= full then draw else full)
  {
    assert Exponential(p.(jitter := false), n - 1) == Exponential(p, n - 1);
  }

  // ---------------------------------------------------------------- attempts

  datatype Candidate = Candidate(provider: string, model: string)

  datatype CompletionResult =
    CompletionResult(provider: string, model: string, text: string, promptTokens: int, completionTokens: int, latencyMs: int)

  /** What one adapter call may do; Malformed is an object of the wrong type or with fields of the wrong type. */
  datatype Reply =
    | Completed(result: CompletionResult)
    | Malformed
    | TimedOut
    | RetryableError
    | NonRetryableError
    | BareProviderError
    | OtherException
    | Cancelled

  datatype Cause = ContractViolation | Unexpected | Cancellation

  datatype AttemptOutcome = SUCCESS | FAILURE | SKIPPED
  datatype FailureCategory = TIMEOUT | RETRYABLE_PROVIDER_ERROR | NON_RETRYABLE_PROVIDER_ERROR
  datatype AttemptRecord =
    AttemptRecord(candidate: Candidate, number: nat, outcome: AttemptOutcome, category: Option<FailureCategory>)

  predicate HonoursContract(c: Candidate, r: CompletionResult) {
    && r.provider == c.provider && r.model == c.model
    && r.promptTokens >= 0 && r.completionTokens >= 0 && r.latencyMs >= 0
  }

  predicate Succeeds(c: Candidate, reply: Reply) {
    reply.Completed? && HonoursContract(c, reply.result)
  }

  predicate Retries(reply: Reply) {
    reply.TimedOut? || reply.RetryableError?
  }

  predicate Propagates(c: Candidate, reply: Reply) {
    reply.Malformed? || reply.OtherException? || reply.Cancelled? || (reply.Completed? && !HonoursContract(c, reply.result))
  }

  function CauseOf(reply: Reply): Cause {
    if reply.Cancelled? then Cancellation else if reply.OtherException? then Unexpected else ContractViolation
  }

  function RecordOf(c: Candidate, n: nat, reply: Reply): AttemptRecord {
    match reply
    case TimedOut => AttemptRecord(c, n, FAILURE, Some(TIMEOUT))
    case RetryableError => AttemptRecord(c, n, FAILURE, Some(RETRYABLE_PROVIDER_ERROR))
    case NonRetryableError => AttemptRecord(c, n, FAILURE, Some(NON_RETRYABLE_PROVIDER_ERROR))
    case BareProviderError => AttemptRecord(c, n, FAILURE, Some(NON_RETRYABLE_PROVIDER_ERROR))
    case _ => AttemptRecord(c, n, SUCCESS, None)
  }

  /** Attempt k is the last one a candidate run makes. */
  ghost predicate Stops(p: RetryPolicy, reply: nat -> Reply, k: nat) {
    && 1 <= k <= p.maxAttempts
    && (forall n | 1 <= n < k :: Retries(reply(n)))
    && (k == p.maxAttempts || !Retries(reply(k)))
  }

  function Records(c: Candidate, reply: nat -> Reply, n: nat): seq<AttemptRecord> {
    if n == 0 then [] else Records(c, reply, n - 1) + [RecordOf(c, n, reply(n))]
  }

  lemma {:induction false} RecordsAre(c: Candidate, reply: nat -> Reply, n: nat)
    ensures |Records(c, reply, n)| == n
    ensures forall i | 0 <= i < n :: Records(c, reply, n)[i] == RecordOf(c, i + 1, reply(i + 1))
  {
    if n > 0 {
      RecordsAre(c, reply, n - 1);
    }
  }

  /** The records a run that stops at attempt k leaves; an attempt that propagates leaves none. */
  function Block(c: Candidate, reply: nat -> Reply, k: nat): seq<AttemptRecord>
    requires k >= 1
  {
    Records(c, reply, if Propagates(c, reply(k)) then k - 1 else k)
  }

  function Skip(c: Candidate): AttemptRecord {
    AttemptRecord(c, 0, SKIPPED, None)
  }

  datatype Ending = Finished(result: CompletionResult) | Exhausted | Raised(cause: Cause)

  function EndingOf(c: Candidate, reply: Reply): Ending {
    if Succeeds(c, reply) then Finished(reply.result)
    else if Propagates(c, reply) then Raised(CauseOf(reply))
    else Exhausted
  }

  // ---------------------------------------------------------------- routes

  /** Structural checks on a candidate list. */
  method BuildRoute(candidates: seq<Candidate>) returns (r: Result<seq<Candidate>, RoutingError>)
    ensures r.Ok? <==> 1 <= |candidates| <= MAX_CANDIDATES
                       && forall i, j | 0 <= i < j < |candidates| :: candidates[i] != candidates[j]
    ensures r.Ok? ==> r.value == candidates
    ensures r.Err? ==> r.error == if |candidates| == 0 then EmptyRoute
                                  else if |candidates| > MAX_CANDIDATES then TooManyCandidates else DuplicateCandidate
  {
    if |candidates| == 0 {
      return Err(EmptyRoute);
    }
    if |candidates| > MAX_CANDIDATES {
      return Err(TooManyCandidates);
    }
    var seen: set<Candidate> := {};
    for n := 0 to |candidates|
      invariant forall c :: c in seen <==> exists i :: 0 <= i < n && candidates[i] == c
      invariant forall i, j | 0 <= i < j < n :: candidates[i] != candidates[j]
    {
      if candidates[n] in seen {
        return Err(DuplicateCandidate);
      }
      seen := seen + {candidates[n]};
    }
    return Ok(candidates);
  }

  /** What the environment answers to attempt n of candidate i, and the jitter drawn after it. */
  type World = (nat, nat) -> Reply

  function ReplyOf(world: World, i: nat): nat -> Reply {
    (n: nat) => world(i, n)
  }

  /** tried[i] is how many adapter calls candidate i got, 0 if its breaker refused it. */
  function BlockOf(route: seq<Candidate>, world: World, i: nat, k: nat): seq<AttemptRecord>
    requires i < |route|
  {
    if k == 0 then [Skip(route[i])] else Block(route[i], ReplyOf(world, i), k)
  }

  function Log(route: seq<Candidate>, world: World, tried: seq<nat>): seq<AttemptRecord>
    requires |tried| <= |route|
  {
    if tried == [] then [] else
      var n := |tried| - 1;
      Log(route, world, tried[..n]) + BlockOf(route, world, n, tried[n])
  }

  /** Candidate i was skipped, or used up its attempts without an answer. */
  ghost predicate Failed(p: RetryPolicy, c: Candidate, world: World, i: nat, k: nat) {
    k == 0 || (Stops(p, ReplyOf(world, i), k) && !Succeeds(c, world(i, k)) && !Propagates(c, world(i, k)))
  }

  /** Candidate i's attempt k answered, or raised out of the route. */
  ghost predicate Decided(p: RetryPolicy, c: Candidate, world: World, i: nat, k: nat) {
    k > 0 && Stops(p, ReplyOf(world, i), k) && (Succeeds(c, world(i, k)) || Propagates(c, world(i, k)))
  }

  /** The candidates tried so far all failed. */
  ghost predicate Undecided(p: RetryPolicy, route: seq<Candidate>, world: World, tried: seq<nat>) {
    && |tried| <= |route|
    && forall i | 0 <= i < |tried| :: Failed(p, route[i], world, i, tried[i])
  }

  /** All failed but the last, which decided the route. */
  ghost predicate DecidedLast(p: RetryPolicy, route: seq<Candidate>, world: World, tried: seq<nat>) {
    && 0 < |tried| <= |route|
    && Undecided(p, route, world, tried[..|tried| - 1])
    && Decided(p, route[|tried| - 1], world, |tried| - 1, tried[|tried| - 1])
  }

  // ---------------------------------------------------------------- the shape of a log

  function CountCalls(log: seq<AttemptRecord>): nat {
    if log == [] then 0
    else CountCalls(log[..|log| - 1]) + if log[|log| - 1].outcome.SKIPPED? then 0 else 1
  }

  lemma {:induction false} CountCallsAdds(a: seq<AttemptRecord>, b: seq<AttemptRecord>)
    ensures CountCalls(a + b) == CountCalls(a) + CountCalls(b)
  {
    if b == [] {
      assert a + b == a;
    } else {
      var n := |b| - 1;
      CountCallsAdds(a, b[..n]);
      assert (a + b)[..|a + b| - 1] == a + b[..n];
    }
  }

  lemma {:induction false} CountCallsAll(b: seq<AttemptRecord>)
    requires forall i | 0 <= i < |b| :: !b[i].outcome.SKIPPED?
    ensures CountCalls(b) == |b|
  {
    if b != [] {
      CountCallsAll(b[..|b| - 1]);
    }
  }

  /** One candidate's records: a single skip numbered 0, or attempts 1..k where all but the last may be retried. */
  ghost predicate BlockShape(p: RetryPolicy, c: Candidate, b: seq<AttemptRecord>) {
    || b == [Skip(c)]
    || (&& 1 <= |b| <= p.maxAttempts
        && (forall i | 0 <= i < |b| :: b[i].candidate == c && b[i].number == i + 1 && !b[i].outcome.SKIPPED?)
        && (forall i | 0 <= i < |b| - 1 ::
              b[i].outcome.FAILURE? && (b[i].category == Some(TIMEOUT) || b[i].category == Some(RETRYABLE_PROVIDER_ERROR)))
        && (b[|b| - 1].outcome.SUCCESS? <==> b[|b| - 1].category.None?))
  }

  lemma BlockHasShape(p: RetryPolicy, c: Candidate, reply: nat -> Reply, k: nat)
    requires Stops(p, reply, k) && !Propagates(c, reply(k))
    ensures BlockShape(p, c, Block(c, reply, k))
    ensures |Block(c, reply, k)| == k
    ensures Block(c, reply, k)[k - 1].outcome.SUCCESS? <==> Succeeds(c, reply(k))
  {
    var b := Block(c, reply, k);
    RecordsAre(c, reply, k);
    forall i | 0 <= i < k - 1
      ensures b[i].outcome.FAILURE? && (b[i].category == Some(TIMEOUT) || b[i].category == Some(RETRYABLE_PROVIDER_ERROR))
    {
      var n := i + 1;
      assert Retries(reply(n));
    }
  }

  ghost predicate SuccessFree(log: seq<AttemptRecord>) {
    forall i | 0 <= i < |log| :: !log[i].outcome.SUCCESS?
  }

  function Calls(tried: seq<nat>): nat {
    if tried == [] then 0 else Calls(tried[..|tried| - 1]) + tried[|tried| - 1]
  }

  /** While undecided every block has its shape. */
  lemma {:induction false} UndecidedShape(p: RetryPolicy, route: seq<Candidate>, world: World, tried: seq<nat>)
    requires Undecided(p, route, world, tried)
    ensures forall i | 0 <= i < |tried| :: BlockShape(p, route[i], BlockOf(route, world, i, tried[i]))
  {
    if tried != [] {
      UndecidedShape(p, route, world, tried[..|tried| - 1]);
      LastBlock(p, route, world, tried);
    }
  }

  /** ... nothing has succeeded, and adapter calls are the records not skipped. */
  lemma {:induction false} UndecidedLog(p: RetryPolicy, route: seq<Candidate>, world: World, tried: seq<nat>)
    requires Undecided(p, route, world, tried)
    ensures SuccessFree(Log(route, world, tried))
    ensures CountCalls(Log(route, world, tried)) == Calls(tried)
  {
    if tried != [] {
      var n := |tried| - 1;
      UndecidedLog(p, route, world, tried[..n]);
      LastBlock(p, route, world, tried);
      CountCallsAdds(Log(route, world, tried[..n]), BlockOf(route, world, n, tried[n]));
    }
  }

  lemma LastBlock(p: RetryPolicy, route: seq<Candidate>, world: World, tried: seq<nat>)
    requires tried != [] && Undecided(p, route, world, tried)
    ensures var n := |tried| - 1;
            var b := BlockOf(route, world, n, tried[n]);
            BlockShape(p, route[n], b) && SuccessFree(b) && CountCalls(b) == tried[n]
  {
    var n := |tried| - 1;
    if tried[n] > 0 {
      var reply := ReplyOf(world, n);
      BlockHasShape(p, route[n], reply, tried[n]);
      CountCallsAll(Block(route[n], reply, tried[n]));
    }
  }

  /** A block that ends in success, after a log without one. */
  lemma AppendSuccess(p: RetryPolicy, c: Candidate, pre: seq<AttemptRecord>, b: seq<AttemptRecord>)
    requires SuccessFree(pre) && BlockShape(p, c, b) && b[|b| - 1].outcome.SUCCESS?
    ensures var log := pre + b;
            log[|log| - 1].outcome.SUCCESS? && SuccessFree(log[..|log| - 1])
    ensures CountCalls(pre + b) == CountCalls(pre) + |b|
  {
    CountCallsAdds(pre, b);
    CountCallsAll(b);
  }

  /** A route decided by success: every block has its shape, the last one ending in success. */
  lemma SuccessfulShape(p: RetryPolicy, route: seq<Candidate>, world: World, tried: seq<nat>)
    requires DecidedLast(p, route, world, tried)
    requires Succeeds(route[|tried| - 1], world(|tried| - 1, tried[|tried| - 1]))
    ensures forall i | 0 <= i < |tried| :: BlockShape(p, route[i], BlockOf(route, world, i, tried[i]))
  {
    var n := |tried| - 1;
    UndecidedShape(p, route, world, tried[..n]);
    BlockHasShape(p, route[n], ReplyOf(world, n), tried[n]);
    assert forall i | 0 <= i < n :: tried[..n][i] == tried[i];
  }

  /** ... success appears once, in the last record, and calls are the records not skipped. */
  lemma SuccessfulLog(p: RetryPolicy, route: seq<Candidate>, world: World, tried: seq<nat>)
    requires DecidedLast(p, route, world, tried)
    requires Succeeds(route[|tried| - 1], world(|tried| - 1, tried[|tried| - 1]))
    ensures var log := Log(route, world, tried);
            && log != [] && log[|log| - 1].outcome.SUCCESS? && SuccessFree(log[..|log| - 1])
            && CountCalls(log) == Calls(tried)
  {
    var n := |tried| - 1;
    var c, reply := route[n], ReplyOf(world, n);
    UndecidedLog(p, route, world, tried[..n]);
    BlockHasShape(p, c, reply, tried[n]);
    var b := Block(c, reply, tried[n]);
    AppendSuccess(p, c, Log(route, world, tried[..n]), b);
    assert Log(route, world, tried) == Log(route, world, tried[..n]) + b;
  }

  /**
  What a finished run of one candidate says, in the replies alone: k attempts, all but the last timed
  out or failed in a way that may be retried, the last one neither unless attempts ran out; and how it ended.
  */
  lemma EndingTells(p: RetryPolicy, c: Candidate, reply: nat -> Reply, k: nat)
    requires Stops(p, reply, k)
    ensures 1 <= k <= p.maxAttempts && forall n | 1 <= n < k :: reply(n) == TimedOut || reply(n) == RetryableError
    ensures reply(k) == TimedOut || reply(k) == RetryableError ==> k == p.maxAttempts
    ensures match reply(k)
            case Completed(r) =>
              EndingOf(c, reply(k)) ==
                if r.provider == c.provider && r.model == c.model && r.promptTokens >= 0 && r.completionTokens >= 0 && r.latencyMs >= 0
                then Finished(r) else Raised(ContractViolation)
            case Malformed => EndingOf(c, reply(k)) == Raised(ContractViolation)
            case OtherException => EndingOf(c, reply(k)) == Raised(Unexpected)
            case Cancelled => EndingOf(c, reply(k)) == Raised(Cancellation)
            case _ => EndingOf(c, reply(k)) == Exhausted
  {
    assert forall n | 1 <= n < k :: Retries(reply(n));
  }

  /** What its records say: attempt n as number n, with the failure its reply stands for; the raised one is not there. */
  lemma BlockTells(p: RetryPolicy, c: Candidate, reply: nat -> Reply, k: nat)
    requires Stops(p, reply, k)
    ensures |Block(c, reply, k)| == if EndingOf(c, reply(k)).Raised? then k - 1 else k
    ensures forall n | 1 <= n <= |Block(c, reply, k)| ::
              Block(c, reply, k)[n - 1] ==
                match reply(n)
                case TimedOut => AttemptRecord(c, n, FAILURE, Some(TIMEOUT))
                case RetryableError => AttemptRecord(c, n, FAILURE, Some(RETRYABLE_PROVIDER_ERROR))
                case Completed(_) => AttemptRecord(c, n, SUCCESS, None)
                case _ => AttemptRecord(c, n, FAILURE, Some(NON_RETRYABLE_PROVIDER_ERROR))
  {
    RecordsAre(c, reply, |Block(c, reply, k)|);
    RecordsAre(c, reply, if Propagates(c, reply(k)) then k - 1 else k);
  }

  /** When all candidates failed, "every record is a skip" says exactly that no adapter was called. */
  lemma AllSkippedMeansNoCall(p: RetryPolicy, route: seq<Candidate>, world: World, tried: seq<nat>)
    requires Undecided(p, route, world, tried) && |tried| == |route| > 0
    ensures Log(route, world, tried) != []
    ensures (forall r | r in Log(route, world, tried) :: r.outcome.SKIPPED?) <==> Calls(tried) == 0
  {
    UndecidedLog(p, route, world, tried);
    LastBlock(p, route, world, tried);
    NoCallsMeansSkips(Log(route, world, tried));
  }

  lemma {:induction false} NoCallsMeansSkips(log: seq<AttemptRecord>)
    ensures CountCalls(log) == 0 <==> forall r | r in log :: r.outcome.SKIPPED?
  {
    if log != [] {
      var pre := log[..|log| - 1];
      NoCallsMeansSkips(pre);
      assert log == pre + [log[|log| - 1]];
    }
  }

  /** The 503-or-502 choice after total failure. */
  function IsTransientFailure(log: seq<AttemptRecord>): bool {
    if log == [] then false else
      var last := log[|log| - 1];
      last.outcome.SKIPPED? || last.category == Some(TIMEOUT) || last.category == Some(RETRYABLE_PROVIDER_ERROR)
  }

  /** A failure is definitive exactly when the last candidate was called and rejected the request outright. */
  lemma TransientUnlessRejected(p: RetryPolicy, route: seq<Candidate>, world: World, tried: seq<nat>)
    requires Undecided(p, route, world, tried) && |tried| == |route| > 0
    ensures var n := |tried| - 1;
            !IsTransientFailure(Log(route, world, tried)) <==>
              tried[n] > 0 && (world(n, tried[n]).NonRetryableError? || world(n, tried[n]).BareProviderError?)
  {
    var n := |tried| - 1;
    if tried[n] > 0 {
      BlockHasShape(p, route[n], ReplyOf(world, n), tried[n]);
      var b := Block(route[n], ReplyOf(world, n), tried[n]);
      assert b[|b| - 1] == RecordOf(route[n], tried[n], world(n, tried[n]));
    }
  }

  /** No route ever calls adapters more often than attempts times candidates. */
  lemma {:induction false} CallsAreBounded(p: RetryPolicy, tried: seq<nat>)
    requires forall i | 0 <= i < |tried| :: tried[i] <= p.maxAttempts
    ensures Calls(tried) <= |tried| * p.maxAttempts
  {
    if tried != [] {
      var n := |tried| - 1;
      CallsAreBounded(p, tried[..n]);
      OneMoreTime(n, p.maxAttempts);
    }
  }
}
