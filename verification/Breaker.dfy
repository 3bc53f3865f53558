/**
The per-process circuit breaker, shared by every candidate run of the process. Runs admitted
earlier may report in any state, so everything is stated over traces of checks and reports
with any number of runs outstanding. Time is a monotonic clock.
*/
module Breaker {
  import opened Wrappers

  datatype State = Closed | Open | HalfOpen
  datatype Config = Config(threshold: nat, cooldown: real)
  datatype Core = Core(state: State, failures: nat, openedAt: Option<real>)

  const INITIAL: Core := Core(Closed, 0, None)

  predicate ValidConfig(cfg: Config) {
    1 <= cfg.threshold <= 100 && 0.001 <= cfg.cooldown <= 3600.0
  }

  predicate Admits(cfg: Config, c: Core, now: real) {
    match c.state
    case Closed => true
    case Open => c.openedAt.Some? && now - c.openedAt.value >= cfg.cooldown
    case HalfOpen => false
  }

  /** A check of an open breaker that has cooled down claims the trial itself. */
  function AfterAsk(cfg: Config, c: Core, now: real): Core {
    if c.state.Open? && Admits(cfg, c, now) then c.(state := HalfOpen) else c
  }

  function AfterFailure(cfg: Config, c: Core, now: real): Core {
    if c.state.HalfOpen? then c.(state := Open, openedAt := Some(now))
    else if c.failures + 1 >= cfg.threshold then Core(Open, c.failures + 1, Some(now))
    else c.(failures := c.failures + 1)
  }

  // ---------------------------------------------------------------- traces

  /** A check by a new candidate run, or the single report of a run that was admitted. */
  datatype Event =
    | Ask(run: nat, at: real, allowed: bool)
    | Success(run: nat, at: real)
    | Failure(run: nat, at: real)

  function Apply(cfg: Config, c: Core, e: Event): Core {
    match e
    case Ask(_, at, _) => AfterAsk(cfg, c, at)
    case Success(_, _) => INITIAL
    case Failure(_, at) => AfterFailure(cfg, c, at)
  }

  function Before(tr: seq<Event>): seq<Event>
    requires tr != []
  {
    tr[..|tr| - 1]
  }

  function Last(tr: seq<Event>): Event
    requires tr != []
  {
    tr[|tr| - 1]
  }

  function After(cfg: Config, tr: seq<Event>): Core {
    if tr == [] then INITIAL else Apply(cfg, After(cfg, Before(tr)), Last(tr))
  }

  /** Runs that have asked. */
  ghost function Runs(tr: seq<Event>): set<nat> {
    set i | 0 <= i < |tr| && tr[i].Ask? :: tr[i].run
  }

  /** Runs that were admitted and have not reported. */
  function Outstanding(tr: seq<Event>): set<nat> {
    if tr == [] then {}
    else match Last(tr)
      case Ask(run, _, allowed) => if allowed then Outstanding(Before(tr)) + {run} else Outstanding(Before(tr))
      case Success(run, _) => Outstanding(Before(tr)) - {run}
      case Failure(run, _) => Outstanding(Before(tr)) - {run}
  }

  ghost predicate MayFollow(cfg: Config, tr: seq<Event>, e: Event) {
    && (tr != [] ==> Last(tr).at <= e.at)
    && match e
       case Ask(run, at, allowed) => run !in Runs(tr) && (allowed <==> Admits(cfg, After(cfg, tr), at))
       case Success(run, _) => run in Outstanding(tr)
       case Failure(run, _) => run in Outstanding(tr)
  }

  ghost predicate Legal(cfg: Config, tr: seq<Event>) {
    tr != [] ==> Legal(cfg, Before(tr)) && MayFollow(cfg, Before(tr), Last(tr))
  }

  lemma {:induction false} LegalPrefix(cfg: Config, tr: seq<Event>, n: nat)
    requires Legal(cfg, tr) && n <= |tr|
    ensures Legal(cfg, tr[..n])
  {
    if n == |tr| {
      assert tr[..n] == tr;
    } else {
      LegalPrefix(cfg, Before(tr), n);
      assert Before(tr)[..n] == tr[..n];
    }
  }

  /** The core after one more event. */
  lemma StepAt(cfg: Config, tr: seq<Event>, n: nat)
    requires Legal(cfg, tr) && n < |tr|
    ensures After(cfg, tr[..n + 1]) == Apply(cfg, After(cfg, tr[..n]), tr[n])
    ensures MayFollow(cfg, tr[..n], tr[n])
  {
    LegalPrefix(cfg, tr, n + 1);
    assert Before(tr[..n + 1]) == tr[..n];
  }

  lemma {:induction false} TimesGrow(cfg: Config, tr: seq<Event>, i: nat, j: nat)
    requires Legal(cfg, tr) && i <= j < |tr|
    ensures tr[i].at <= tr[j].at
    decreases j
  {
    if i < j {
      TimesGrow(cfg, tr, i, j - 1);
      StepAt(cfg, tr, j);
    }
  }

  predicate Report(e: Event) {
    e.Success? || e.Failure?
  }

  // ---------------------------------------------------------------- the breaker and its history

  /** CLOSED, a counter below the threshold, and no opening time are one and the same. */
  lemma {:induction false} ClosedIsBelowThreshold(cfg: Config, tr: seq<Event>)
    requires ValidConfig(cfg) && Legal(cfg, tr)
    ensures var c := After(cfg, tr);
            && (c.state.Closed? <==> c.failures < cfg.threshold)
            && (c.state.Closed? <==> c.openedAt.None?)
  {
    if tr != [] {
      ClosedIsBelowThreshold(cfg, Before(tr));
    }
  }

  /** Event i is a failure reported outside HALF_OPEN with no success report since. */
  ghost predicate Counts(cfg: Config, tr: seq<Event>, i: nat) {
    && i < |tr| && tr[i].Failure? && !After(cfg, tr[..i]).state.HalfOpen?
    && forall j | i < j < |tr| :: !tr[j].Success?
  }

  ghost function Counted(cfg: Config, tr: seq<Event>): set<nat> {
    set i: nat | i < |tr| && Counts(cfg, tr, i)
  }

  lemma CountsBefore(cfg: Config, tr: seq<Event>, i: nat)
    requires tr != [] && i < |tr| - 1
    ensures Counts(cfg, tr, i) <==> Counts(cfg, Before(tr), i) && !Last(tr).Success?
  {
    assert tr[..i] == Before(tr)[..i];
    assert forall j | i < j < |tr| - 1 :: Before(tr)[j] == tr[j];
  }

  /** The counter is exactly the number of those reports. */
  lemma {:induction false} CounterIsHistory(cfg: Config, tr: seq<Event>)
    requires ValidConfig(cfg) && Legal(cfg, tr)
    ensures After(cfg, tr).failures == |Counted(cfg, tr)|
  {
    if tr == [] {
      assert Counted(cfg, tr) == {};
    } else {
      var pre, n := Before(tr), |tr| - 1;
      CounterIsHistory(cfg, pre);
      forall i: nat | i < n
        ensures Counts(cfg, tr, i) <==> Counts(cfg, pre, i) && !Last(tr).Success?
      {
        CountsBefore(cfg, tr, i);
      }
      assert tr[..n] == pre;
      var now: set<nat> := if Counts(cfg, tr, n) then {n} else {};
      assert Counted(cfg, tr) == (if Last(tr).Success? then {} else Counted(cfg, pre)) + now;
    }
  }

  /** k is the last report of the trace, a failure at time t. */
  predicate LastReportFailed(tr: seq<Event>, k: nat, t: real) {
    && k < |tr| && tr[k].Failure? && tr[k].at == t
    && forall j | k < j < |tr| :: tr[j].Ask?
  }

  /** The opening time is always the time of the last report, which was a failure. */
  lemma {:induction false} OpenedAtLastFailure(cfg: Config, tr: seq<Event>) returns (k: nat)
    requires ValidConfig(cfg) && Legal(cfg, tr) && !After(cfg, tr).state.Closed?
    ensures After(cfg, tr).openedAt.Some? && LastReportFailed(tr, k, After(cfg, tr).openedAt.value)
  {
    ClosedIsBelowThreshold(cfg, Before(tr));
    if Last(tr).Ask? {
      k := OpenedAtLastFailure(cfg, Before(tr));
    } else {
      k := |tr| - 1;
    }
  }

  // ---------------------------------------------------------------- trials

  /** Event k is the check that claims a trial. */
  predicate Trial(cfg: Config, tr: seq<Event>, k: nat) {
    k < |tr| && tr[k].Ask? && tr[k].allowed && After(cfg, tr[..k]).state.Open?
  }

  /** HALF_OPEN means: one trial was admitted, it has not reported, and every check since was refused. */
  lemma {:induction false} HalfOpenHasOneTrial(cfg: Config, tr: seq<Event>) returns (k: nat)
    requires ValidConfig(cfg) && Legal(cfg, tr) && After(cfg, tr).state.HalfOpen?
    ensures Trial(cfg, tr, k) && tr[k].run in Outstanding(tr)
    ensures forall j | k < j < |tr| :: tr[j].Ask? && !tr[j].allowed
  {
    var pre := Before(tr);
    if After(cfg, pre).state.HalfOpen? {
      k := HalfOpenHasOneTrial(cfg, pre);
      assert tr[..k] == pre[..k];
    } else {
      k := |tr| - 1;
      assert tr[..k] == pre;
    }
  }

  /**
  A trial in flight is the one HALF_OPEN is waiting for, with no other trial admitted since, if and
  only if nothing has reported since it was admitted.
  */
  lemma AloneUntilReport(cfg: Config, tr: seq<Event>, i: nat)
    requires ValidConfig(cfg) && Legal(cfg, tr)
    requires Trial(cfg, tr, i) && tr[i].run in Outstanding(tr)
    ensures (After(cfg, tr).state.HalfOpen? && forall j: nat | i < j < |tr| :: !Trial(cfg, tr, j))
            <==> forall j | i < j < |tr| :: !Report(tr[j])
  {
    StepAt(cfg, tr, i);
    assert tr[..|tr|] == tr;
    if forall j | i < j < |tr| :: !Report(tr[j]) {
      StaysHalfOpen(cfg, tr, i + 1, |tr|);
      forall j: nat | i < j < |tr|
        ensures !Trial(cfg, tr, j)
      {
        StaysHalfOpen(cfg, tr, i + 1, j);
      }
    } else if After(cfg, tr).state.HalfOpen? {
      var k := HalfOpenHasOneTrial(cfg, tr);
      var r :| i < r < |tr| && Report(tr[r]);
    }
  }

  /** Event i is a report made in HALF_OPEN by a run other than the trial it is waiting for. */
  ghost predicate StragglerReport(cfg: Config, tr: seq<Event>, i: nat) {
    && i < |tr| && Report(tr[i]) && After(cfg, tr[..i]).state.HalfOpen?
    && exists k: nat :: Trial(cfg, tr, k) && k < i && tr[k].run != tr[i].run
                   && forall j | k < j < i :: !Report(tr[j])
  }

  /**
  Without straggler reports a trial in flight means HALF_OPEN, so two trials are never in flight
  at once.
  */
  lemma {:induction false} OneTrialInFlight(cfg: Config, tr: seq<Event>, i: nat)
    requires ValidConfig(cfg) && Legal(cfg, tr)
    requires forall n: nat :: !StragglerReport(cfg, tr, n)
    requires Trial(cfg, tr, i) && tr[i].run in Outstanding(tr)
    ensures After(cfg, tr).state.HalfOpen?
    ensures forall j: nat | i < j < |tr| :: !Trial(cfg, tr, j) && !Report(tr[j])
  {
    if exists r :: i < r < |tr| && Report(tr[r]) {
      var r := FirstReport(tr, i);
      StepAt(cfg, tr, i);
      StaysHalfOpen(cfg, tr, i + 1, r);
      ReportedIsNotOutstanding(cfg, tr, r);
      assert StragglerReport(cfg, tr, r);
    }
    AloneUntilReport(cfg, tr, i);
  }

  lemma FirstReport(tr: seq<Event>, i: nat) returns (r: nat)
    requires exists j :: i < j < |tr| && Report(tr[j])
    ensures i < r < |tr| && Report(tr[r]) && forall j | i < j < r :: !Report(tr[j])
  {
    r := i + 1;
    while !Report(tr[r])
      invariant i < r < |tr|
      invariant forall j | i < j < r :: !Report(tr[j])
      decreases |tr| - r
    {
      r := r + 1;
    }
  }

  /**
  A trial need not be the only one in flight: a straggler's failure reopens the breaker while the
  first trial is still running, and a cooldown later a second trial is admitted.
  */
  lemma TwoTrialsInFlight() returns (cfg: Config, tr: seq<Event>, i: nat, j: nat)
    ensures ValidConfig(cfg) && Legal(cfg, tr) && i < j
    ensures Trial(cfg, tr, i) && Trial(cfg, tr, j)
    ensures tr[i].run in Outstanding(tr) && tr[j].run in Outstanding(tr)
  {
    cfg, i, j := Config(1, 1.0), 3, 5;
    var tripped := OneFailedOneRunning(cfg);
    Extend(cfg, tripped, Ask(3, 1.0, true));
    var trial := tripped + [Ask(3, 1.0, true)];
    Extend(cfg, trial, Failure(2, 1.0));
    var reopened := trial + [Failure(2, 1.0)];
    Extend(cfg, reopened, Ask(4, 2.0, true));
    tr := reopened + [Ask(4, 2.0, true)];
    assert tr[..3] == tripped && tr[..5] == reopened;
  }

  lemma OneFailedOneRunning(cfg: Config) returns (tr: seq<Event>)
    requires cfg == Config(1, 1.0)
    ensures Legal(cfg, tr) && |tr| == 3 && Last(tr).at == 0.0
    ensures After(cfg, tr) == Core(Open, 1, Some(0.0))
    ensures Runs(tr) == {1, 2} && Outstanding(tr) == {2}
  {
    Extend(cfg, [], Ask(1, 0.0, true));
    tr := [] + [Ask(1, 0.0, true)];
    Extend(cfg, tr, Ask(2, 0.0, true));
    tr := tr + [Ask(2, 0.0, true)];
    Extend(cfg, tr, Failure(1, 0.0));
    tr := tr + [Failure(1, 0.0)];
  }

  /** What a trace may be extended to while run held stays in flight. */
  ghost predicate Extends(cfg: Config, tr: seq<Event>, tr': seq<Event>, held: nat) {
    tr <= tr' && Legal(cfg, tr') && held in Outstanding(tr')
  }

  lemma OneMoreEvent(cfg: Config, tr: seq<Event>, held: nat, e: Event) returns (tr': seq<Event>)
    requires Legal(cfg, tr) && MayFollow(cfg, tr, e) && held in Outstanding(tr)
    requires e.Ask? || e.run != held
    ensures tr' == tr + [e] && Extends(cfg, tr, tr', held)
    ensures After(cfg, tr') == Apply(cfg, After(cfg, tr), e)
    ensures Runs(tr') == Runs(tr) + if e.Ask? then {e.run} else {}
    ensures e.Ask? && e.allowed ==> e.run in Outstanding(tr')
  {
    tr' := tr + [e];
    Extend(cfg, tr, e);
  }

  lemma FreshRun(used: set<nat>) returns (run: nat)
    ensures run !in used
  {
    run := 0;
    var above := used;
    while above != {}
      invariant above <= used
      invariant forall x | x in used :: x in above || x < run
      decreases above
    {
      var x :| x in above;
      run := if x < run then run else x + 1;
      above := above - {x};
    }
  }

  /** A closed breaker can be opened by fresh runs that fail, whatever else is in flight. */
  lemma {:induction false} CanTrip(cfg: Config, tr: seq<Event>, held: nat) returns (tr': seq<Event>)
    requires ValidConfig(cfg) && Legal(cfg, tr) && held in Outstanding(tr) && After(cfg, tr).state.Closed?
    ensures Extends(cfg, tr, tr', held) && After(cfg, tr').state.Open?
    decreases cfg.threshold - After(cfg, tr).failures
  {
    ClosedIsBelowThreshold(cfg, tr);
    OutstandingHaveAsked(tr);
    var run := FreshRun(Runs(tr));
    var asked := OneMoreEvent(cfg, tr, held, Ask(run, Last(tr).at, true));
    var failed := OneMoreEvent(cfg, asked, held, Failure(run, Last(asked).at));
    if After(cfg, failed).state.Open? {
      tr' := failed;
    } else {
      tr' := CanTrip(cfg, failed, held);
    }
  }

  /** An open breaker admits a trial once it has cooled down. */
  lemma CanTry(cfg: Config, tr: seq<Event>, held: nat) returns (tr': seq<Event>)
    requires ValidConfig(cfg) && Legal(cfg, tr) && held in Outstanding(tr) && After(cfg, tr).state.Open?
    ensures Extends(cfg, tr, tr', held) && |tr'| == |tr| + 1
    ensures Trial(cfg, tr', |tr|) && tr'[|tr|].run in Outstanding(tr')
  {
    var k := OpenedAtLastFailure(cfg, tr);
    TimesGrow(cfg, tr, k, |tr| - 1);
    var run := FreshRun(Runs(tr));
    tr' := OneMoreEvent(cfg, tr, held, Ask(run, Last(tr).at + cfg.cooldown, true));
    assert tr'[..|tr|] == tr;
  }

  lemma TrialsAskOnce(cfg: Config, tr: seq<Event>, i: nat, j: nat)
    requires Legal(cfg, tr) && i < j < |tr| && tr[i].Ask? && tr[j].Ask?
    ensures tr[i].run != tr[j].run
  {
    StepAt(cfg, tr, j);
    assert tr[..j][i].run in Runs(tr[..j]);
  }

  lemma TrialSurvives(cfg: Config, tr: seq<Event>, tr': seq<Event>, i: nat)
    requires tr <= tr' && Trial(cfg, tr, i)
    ensures Trial(cfg, tr', i) && tr'[i] == tr[i]
  {
    assert tr'[..i] == tr[..i];
  }

  /**
  Once anything has reported since a trial that is still in flight, the trace can go on so that a
  second trial is in flight beside it.
  */
  lemma SecondTrialIsPossible(cfg: Config, tr: seq<Event>, i: nat, r: nat) returns (tr': seq<Event>, j: nat)
    requires ValidConfig(cfg) && Legal(cfg, tr)
    requires Trial(cfg, tr, i) && tr[i].run in Outstanding(tr)
    requires i < r < |tr| && Report(tr[r])
    ensures tr <= tr' && Legal(cfg, tr')
    ensures i < j && Trial(cfg, tr', i) && Trial(cfg, tr', j) && tr'[i].run != tr'[j].run
    ensures tr'[i].run in Outstanding(tr') && tr'[j].run in Outstanding(tr')
  {
    var held := tr[i].run;
    if After(cfg, tr).state.HalfOpen? {
      tr' := tr;
      j := HalfOpenHasOneTrial(cfg, tr);
    } else {
      var tripped := tr;
      if After(cfg, tr).state.Closed? {
        tripped := CanTrip(cfg, tr, held);
      }
      tr' := CanTry(cfg, tripped, held);
      j := |tripped|;
    }
    TrialSurvives(cfg, tr, tr', i);
    TrialsAskOnce(cfg, tr', i, j);
  }

  /** What one more event does to everything a trace determines. */
  lemma Extend(cfg: Config, tr: seq<Event>, e: Event)
    requires Legal(cfg, tr) && MayFollow(cfg, tr, e)
    ensures Legal(cfg, tr + [e]) && After(cfg, tr + [e]) == Apply(cfg, After(cfg, tr), e)
    ensures Runs(tr + [e]) == Runs(tr) + if e.Ask? then {e.run} else {}
    ensures Outstanding(tr + [e]) == if !e.Ask? then Outstanding(tr) - {e.run}
                                     else if e.allowed then Outstanding(tr) + {e.run} else Outstanding(tr)
  {
    assert Before(tr + [e]) == tr;
    assert forall i | 0 <= i < |tr| :: (tr + [e])[i] == tr[i];
    if e.Ask? {
      assert (tr + [e])[|tr|].run == e.run;
    }
  }

  /**
  Recovery: when every admitted run has reported, the breaker is not half open, and it refuses a
  check only within one cooldown of a failure report.
  */
  lemma QuiescentBreakerRecovers(cfg: Config, tr: seq<Event>, now: real)
    requires ValidConfig(cfg) && Legal(cfg, tr) && Outstanding(tr) == {}
    ensures !After(cfg, tr).state.HalfOpen?
    ensures (forall i | 0 <= i < |tr| && tr[i].Failure? :: now - tr[i].at >= cfg.cooldown) ==> Admits(cfg, After(cfg, tr), now)
    ensures !Admits(cfg, After(cfg, tr), now) <==>
              !After(cfg, tr).state.Closed? && exists k, t :: LastReportFailed(tr, k, t) && now - t < cfg.cooldown
  {
    if After(cfg, tr).state.HalfOpen? {
      var k := HalfOpenHasOneTrial(cfg, tr);
    }
    if !After(cfg, tr).state.Closed? {
      var k := OpenedAtLastFailure(cfg, tr);
    }
  }

  /** Without a report nothing ever leaves HALF_OPEN, and the first report always does. */
  lemma {:induction false} HalfOpenEndsWithReport(cfg: Config, tr: seq<Event>, more: seq<Event>)
    requires ValidConfig(cfg) && Legal(cfg, tr + more) && After(cfg, tr).state.HalfOpen?
    ensures (forall n | 0 <= n <= |more| :: After(cfg, tr + more[..n]).state.HalfOpen?)
            <==> forall i | 0 <= i < |more| :: !Report(more[i])
    ensures (forall i | 0 <= i < |more| :: !Report(more[i])) ==>
              forall i | 0 <= i < |more| :: !more[i].allowed
  {
    if more == [] {
      assert tr + more[..0] == tr;
    } else {
      var fewer, n := more[..|more| - 1], |more| - 1;
      assert Before(tr + more) == tr + fewer;
      assert tr + more[..|more|] == tr + more;
      HalfOpenEndsWithReport(cfg, tr, fewer);
      assert forall m | 0 <= m <= n :: more[..m] == fewer[..m];
      assert forall i | 0 <= i < n :: more[i] == fewer[i];
      assert Last(tr + more) == more[n];
    }
  }

  /** From a trial to the next with no success between: at least one cooldown passes. */
  lemma TrialsAreSpaced(cfg: Config, tr: seq<Event>, i: nat, j: nat)
    requires ValidConfig(cfg) && Legal(cfg, tr)
    requires i < j && Trial(cfg, tr, i) && Trial(cfg, tr, j)
    requires forall k | i < k < j :: !tr[k].Success?
    ensures tr[j].at - tr[i].at >= cfg.cooldown
  {
    LegalPrefix(cfg, tr, j);
    StepAt(cfg, tr, i);
    StepAt(cfg, tr, j);
    var k := OpenedAtLastFailure(cfg, tr[..j]);
    if k <= i {
      // nothing was reported since the trial, so the breaker would still be half open
      StaysHalfOpen(cfg, tr, i + 1, j);
    }
    TimesGrow(cfg, tr, if i <= k then i else k, k);
  }

  lemma {:induction false} StaysHalfOpen(cfg: Config, tr: seq<Event>, i: nat, j: nat)
    requires Legal(cfg, tr) && i <= j <= |tr| && After(cfg, tr[..i]).state.HalfOpen?
    requires forall k | i <= k < j :: tr[k].Ask?
    ensures After(cfg, tr[..j]).state.HalfOpen?
    decreases j
  {
    if i < j {
      StaysHalfOpen(cfg, tr, i, j - 1);
      StepAt(cfg, tr, j - 1);
    }
  }

  /** Trials among events m..n. */
  function TrialCount(cfg: Config, tr: seq<Event>, m: nat, n: nat): nat
    requires m <= n <= |tr|
    decreases n
  {
    if m == n then 0 else TrialCount(cfg, tr, m, n - 1) + if Trial(cfg, tr, n - 1) then 1 else 0
  }

  /** n cooldowns. */
  function Cooldowns(cfg: Config, n: nat): real {
    if n == 0 then 0.0 else Cooldowns(cfg, n - 1) + cfg.cooldown
  }

  lemma {:induction false} CooldownsMultiply(cfg: Config, n: nat)
    ensures Cooldowns(cfg, n) == n as real * cfg.cooldown
  {
    if n == 0 {
      assert n as real == 0.0;
    } else {
      CooldownsMultiply(cfg, n - 1);
      assert n as real == (n - 1) as real + 1.0;
      OneMore((n - 1) as real, cfg.cooldown);
    }
  }

  lemma OneMore(x: real, d: real)
    ensures (x + 1.0) * d == x * d + d
  {
  }

  lemma {:induction false} TrialsTakeTime(cfg: Config, tr: seq<Event>, m: nat, n: nat) returns (first: nat, last: nat)
    requires ValidConfig(cfg) && Legal(cfg, tr) && m <= n <= |tr|
    requires forall k | m <= k < n :: !tr[k].Success?
    requires TrialCount(cfg, tr, m, n) > 0
    ensures m <= first <= last < n && Trial(cfg, tr, first) && Trial(cfg, tr, last)
    ensures tr[last].at - tr[first].at >= Cooldowns(cfg, TrialCount(cfg, tr, m, n) - 1)
    decreases n
  {
    if !Trial(cfg, tr, n - 1) {
      first, last := TrialsTakeTime(cfg, tr, m, n - 1);
    } else if TrialCount(cfg, tr, m, n) == 1 {
      first, last := n - 1, n - 1;
    } else {
      first, last := TrialsTakeTime(cfg, tr, m, n - 1);
      TrialsAreSpaced(cfg, tr, last, n - 1);
      last := n - 1;
    }
  }

  lemma TrialsFit(cfg: Config, tr: seq<Event>, m: nat, n: nat, length: real)
    requires ValidConfig(cfg) && Legal(cfg, tr) && m <= n <= |tr|
    requires forall k | m <= k < n :: !tr[k].Success?
    requires TrialCount(cfg, tr, m, n) > 0
    requires forall i, j | m <= i < n && m <= j < n :: tr[j].at - tr[i].at <= length
    ensures Cooldowns(cfg, TrialCount(cfg, tr, m, n) - 1) <= length
  {
    var first, last := TrialsTakeTime(cfg, tr, m, n);
  }

  /** Any stretch of length T without a success report has at most 1 + floor(T / cooldown) trials. */
  lemma TrialsAreRare(cfg: Config, tr: seq<Event>, m: nat, n: nat, length: real)
    requires ValidConfig(cfg) && Legal(cfg, tr) && m <= n <= |tr|
    requires forall k | m <= k < n :: !tr[k].Success?
    requires length >= 0.0 && forall i, j | m <= i < n && m <= j < n :: tr[j].at - tr[i].at <= length
    ensures TrialCount(cfg, tr, m, n) <= 1 + (length / cfg.cooldown).Floor
  {
    var count := TrialCount(cfg, tr, m, n);
    if count > 0 {
      TrialsFit(cfg, tr, m, n, length);
    }
    CooldownsBelow(cfg, if count > 0 then count - 1 else 0, length);
  }

  lemma CooldownsBelow(cfg: Config, x: nat, length: real)
    requires cfg.cooldown > 0.0 && Cooldowns(cfg, x) <= length
    ensures x <= (length / cfg.cooldown).Floor
  {
    CooldownsMultiply(cfg, x);
    FitsBelow(x, cfg.cooldown, length);
  }

  lemma FitsBelow(x: nat, d: real, y: real)
    requires d > 0.0 && x as real * d <= y
    ensures x <= (y / d).Floor
  {
    var q := y / d;
    assert q * d == y;
    if q < x as real {
      Less(q, x as real, d);
    }
  }

  lemma Less(q: real, x: real, d: real)
    requires q < x && d > 0.0
    ensures q * d < x * d
  {
  }

  /** Only runs that asked can be outstanding. */
  lemma {:induction false} OutstandingHaveAsked(tr: seq<Event>)
    ensures Outstanding(tr) <= Runs(tr)
  {
    if tr != [] {
      OutstandingHaveAsked(Before(tr));
      var n := |tr| - 1;
      assert forall i | 0 <= i < n :: tr[i] == Before(tr)[i];
      if Last(tr).Ask? {
        assert tr[n].run in Runs(tr);
      }
    }
  }

  /** A run that has reported is not outstanding again, so no run ever reports twice. */
  lemma {:induction false} ReportedIsNotOutstanding(cfg: Config, tr: seq<Event>, i: nat)
    requires Legal(cfg, tr) && i < |tr| && Report(tr[i])
    ensures tr[i].run in Runs(tr) && tr[i].run !in Outstanding(tr)
  {
    var pre, n := Before(tr), |tr| - 1;
    OutstandingHaveAsked(pre);
    if i < n {
      ReportedIsNotOutstanding(cfg, pre, i);
    }
    assert Runs(pre) <= Runs(tr) by {
      assert forall j | 0 <= j < n :: pre[j] == tr[j];
    }
  }

  lemma ReportsOnce(cfg: Config, tr: seq<Event>, i: nat, j: nat)
    requires Legal(cfg, tr) && i < j < |tr| && Report(tr[i]) && Report(tr[j])
    ensures tr[i].run != tr[j].run
  {
    LegalPrefix(cfg, tr, j);
    StepAt(cfg, tr, j);
    ReportedIsNotOutstanding(cfg, tr[..j], i);
  }

  /** A check of the breaker, answered from its fields. */
  lemma AskFollows(cfg: Config, tr: seq<Event>, core: Core, run: nat, now: real)
    requires Legal(cfg, tr) && core == After(cfg, tr) && run !in Runs(tr)
    requires tr != [] ==> Last(tr).at <= now
    ensures var e := Ask(run, now, Admits(cfg, core, now));
            Legal(cfg, tr + [e]) && After(cfg, tr + [e]) == AfterAsk(cfg, core, now)
  {
    Extend(cfg, tr, Ask(run, now, Admits(cfg, core, now)));
  }

  // ---------------------------------------------------------------- the object

  class CircuitBreaker {
    const config: Config
    var state: State
    var consecutiveFailures: nat
    var openedAt: Option<real>
    ghost var history: seq<Event>

    ghost predicate Valid()
      reads this
    {
      && ValidConfig(config)
      && Legal(config, history)
      && Core(state, consecutiveFailures, openedAt) == After(config, history)
    }

    constructor (config: Config)
      requires ValidConfig(config)
      ensures Valid() && history == [] && this.config == config
    {
      this.config := config;
      state, consecutiveFailures, openedAt := Closed, 0, None;
      history := [];
    }

    method ShouldAllow(now: real, ghost run: nat) returns (allowed: bool)
      requires Valid() && MayBeNow(now) && run !in Runs(history)
      modifies this
      ensures Valid() && history == old(history) + [Ask(run, now, allowed)]
      ensures allowed <==> old(state).Closed?
                           || (old(state).Open? && old(openedAt).Some? && now - old(openedAt).value >= config.cooldown)
      ensures state == (if old(state).Open? && allowed then HalfOpen else old(state))
      ensures consecutiveFailures == old(consecutiveFailures) && openedAt == old(openedAt)
    {
      ghost var before, core := history, Core(state, consecutiveFailures, openedAt);
      AskFollows(config, before, core, run, now);
      if state.Closed? {
        allowed := true;
      } else if state.Open? {
        if openedAt.Some? && now - openedAt.value >= config.cooldown {
          state := HalfOpen;
          allowed := true;
        } else {
          allowed := false;
        }
      } else {
        allowed := false;
      }
      history := history + [Ask(run, now, allowed)];
    }

    ghost predicate MayBeNow(now: real)
      reads this
    {
      history != [] ==> Last(history).at <= now
    }

    method RecordSuccess(ghost now: real, ghost run: nat)
      requires Valid() && MayBeNow(now) && run in Outstanding(history)
      modifies this
      ensures Valid() && history == old(history) + [Success(run, now)]
      ensures state == Closed && consecutiveFailures == 0 && openedAt == None
    {
      ghost var before := history;
      state, consecutiveFailures, openedAt := Closed, 0, None;
      history := history + [Success(run, now)];
      Extend(config, before, Success(run, now));
    }

    method RecordFailure(now: real, ghost run: nat)
      requires Valid() && MayBeNow(now) && run in Outstanding(history)
      modifies this
      ensures Valid() && history == old(history) + [Failure(run, now)]
      ensures consecutiveFailures == old(consecutiveFailures) + if old(state).HalfOpen? then 0 else 1
      ensures if old(state).HalfOpen? || consecutiveFailures >= config.threshold then state == Open && openedAt == Some(now)
              else state == old(state) && openedAt == old(openedAt)
    {
      ghost var before := history;
      if state.HalfOpen? {
        state, openedAt := Open, Some(now);
      } else {
        consecutiveFailures := consecutiveFailures + 1;
        if consecutiveFailures >= config.threshold {
          state, openedAt := Open, Some(now);
        }
      }
      history := history + [Failure(run, now)];
      Extend(config, before, Failure(run, now));
    }
  }
}
