/**
The sliding-window limiter: one sorted set per team, trimmed lazily and given a time to live.
Scores and times are whole microseconds, the resolution of the Redis TIME command.
*/
module RateLimit {
  import opened Wrappers

  const SECOND: int := 1_000_000

  /**
  The script passes its eviction bound through tostring, which keeps 14 significant digits. The
  rounding is any monotone function that moves its argument by at most eps.
  */
  datatype Rounding = Rounding(at: int -> int, eps: int)

  ghost predicate ValidRounding(r: Rounding) {
    && 0 <= r.eps <= SECOND
    && (forall x :: x - r.eps <= r.at(x) <= x + r.eps)
    && (forall x, y | x <= y :: r.at(x) <= r.at(y))
  }

  datatype Limits = Limits(limit: nat, windowSeconds: nat, rounding: Rounding)

  ghost predicate ValidLimits(l: Limits) {
    l.limit >= 1 && l.windowSeconds >= 1 && ValidRounding(l.rounding)
  }

  function Window(l: Limits): int {
    l.windowSeconds * SECOND
  }

  /** Scores below this are evicted; one equal to it is kept. */
  function EvictBelow(l: Limits, now: int): int {
    l.rounding.at(now - Window(l))
  }

  // ---------------------------------------------------------------- the key

  /** The sorted set and, when set, the absolute millisecond after which the key is gone. */
  datatype Store = Store(zset: map<string, int>, expireAtMs: Option<int>)

  const EMPTY: Store := Store(map[], None)

  function Millis(micros: int): int {
    micros / 1000
  }

  function Alive(s: Store, now: int): Store {
    if s.expireAtMs.Some? && Millis(now) > s.expireAtMs.value then EMPTY else s
  }

  function Trimmed(l: Limits, s: Store, now: int): map<string, int> {
    map m | m in Alive(s, now).zset && Alive(s, now).zset[m] >= EvictBelow(l, now) :: Alive(s, now).zset[m]
  }

  predicate Allows(l: Limits, s: Store, now: int) {
    |Trimmed(l, s, now)| < l.limit
  }

  /** The key after one run of the script. */
  function AfterCheck(l: Limits, s: Store, now: int, member: string): Store {
    var kept := Trimmed(l, s, now);
    if |kept| < l.limit then Store(kept[member := now], Some(Millis(now) + (l.windowSeconds + 1) * 1000))
    else Store(kept, if kept == map[] then None else Alive(s, now).expireAtMs)
  }

  datatype CheckResult = CheckResult(allowed: bool, currentCount: nat, resetAt: int, retryAfterSeconds: nat)

  function Remaining(l: Limits, r: CheckResult): nat {
    if l.limit >= r.currentCount then l.limit - r.currentCount else 0
  }

  function CeilSeconds(micros: int): int {
    (micros + SECOND - 1) / SECOND
  }

  ghost predicate Oldest(zset: map<string, int>, score: int) {
    (exists m :: m in zset && zset[m] == score) && forall m | m in zset :: score <= zset[m]
  }

  /** ZRANGE key 0 0: a member of least score. */
  method OldestScore(zset: map<string, int>) returns (score: int)
    requires zset != map[]
    ensures Oldest(zset, score)
  {
    var members := zset.Keys;
    var first :| first in members;
    score := zset[first];
    members := members - {first};
    while members != {}
      invariant members <= zset.Keys
      invariant exists m :: m in zset && zset[m] == score
      invariant forall m | m in zset && m !in members :: score <= zset[m]
      decreases members
    {
      var m :| m in members;
      if zset[m] < score {
        score := zset[m];
      }
      members := members - {m};
    }
  }

  // ---------------------------------------------------------------- the full history

  /** A check of the limiter and whether it was admitted. */
  datatype Entry = Entry(at: int, member: string, admitted: bool)

  /** The store after a history of checks. */
  function StoreAfter(l: Limits, h: seq<Entry>): Store {
    if h == [] then EMPTY
    else AfterCheck(l, StoreAfter(l, h[..|h| - 1]), h[|h| - 1].at, h[|h| - 1].member)
  }

  function LastAt(h: seq<Entry>): int
    requires h != []
  {
    h[|h| - 1].at
  }

  /** Times never go back and every entry records what the script decided. */
  ghost predicate Legal(l: Limits, h: seq<Entry>) {
    h != [] ==>
      var pre, e := h[..|h| - 1], h[|h| - 1];
      && Legal(l, pre)
      && (pre != [] ==> LastAt(pre) <= e.at)
      && (e.admitted <==> Allows(l, StoreAfter(l, pre), e.at))
  }

  /** Members with an admission at or after a time, counted over the whole history. */
  ghost function AdmittedSince(h: seq<Entry>, from: int): set<string> {
    set i | 0 <= i < |h| && h[i].admitted && h[i].at >= from :: h[i].member
  }

  /** The stored score of a member is its last admission. */
  ghost predicate IsLastAdmission(h: seq<Entry>, m: string, score: int) {
    && (exists i :: 0 <= i < |h| && h[i] == Entry(score, m, true))
    && forall i | 0 <= i < |h| && h[i].admitted && h[i].member == m :: h[i].at <= score
  }

  /** What lazy eviction and the time to live keep, compared with the full history. */
  ghost predicate Represents(l: Limits, h: seq<Entry>, s: Store) {
    && (forall m | m in s.zset :: IsLastAdmission(h, m, s.zset[m]))
    && (h != [] ==> forall i | 0 <= i < |h| && h[i].admitted && h[i].at >= EvictBelow(l, LastAt(h)) :: h[i].member in s.zset)
    && ExpiryFits(l, h, s)
  }

  /** The time to live outlasts every admission's window, and only an empty key has none. */
  ghost predicate ExpiryFits(l: Limits, h: seq<Entry>, s: Store) {
    match s.expireAtMs
    case None => s.zset == map[]
    case Some(deadline) => forall i | 0 <= i < |h| && h[i].admitted :: Millis(h[i].at) + (l.windowSeconds + 1) * 1000 <= deadline
  }

  // ---------------------------------------------------------------- the script decides as the full log would

  lemma {:induction false} TimesGrow(l: Limits, h: seq<Entry>)
    requires Legal(l, h) && h != []
    ensures forall i | 0 <= i < |h| :: h[i].at <= LastAt(h)
    ensures var pre := h[..|h| - 1]; forall i | 0 <= i < |pre| :: pre[i].at <= LastAt(h)
  {
    var pre := h[..|h| - 1];
    if pre != [] {
      TimesGrow(l, pre);
      assert forall i | 0 <= i < |pre| :: pre[i] == h[i];
    }
  }

  /** Lazy eviction agrees with a count over the full history. */
  lemma TrimmedIsWindow(l: Limits, h: seq<Entry>, s: Store, now: int)
    requires ValidLimits(l) && Represents(l, h, s)
    requires h != [] ==> LastAt(h) <= now
    ensures Trimmed(l, s, now).Keys == AdmittedSince(h, EvictBelow(l, now))
  {
    var kept, since := Trimmed(l, s, now), AdmittedSince(h, EvictBelow(l, now));
    forall m | m in kept
      ensures m in since
    {
      var i :| 0 <= i < |h| && h[i] == Entry(kept[m], m, true);
      assert h[i].member in since;
    }
    forall m | m in since
      ensures m in kept
    {
      var i :| 0 <= i < |h| && h[i].admitted && h[i].at >= EvictBelow(l, now) && h[i].member == m;
      assert EvictBelow(l, LastAt(h)) <= EvictBelow(l, now);
      assert m in s.zset && h[i].at <= s.zset[m];
    }
  }

  lemma ScoresStep(l: Limits, h: seq<Entry>, s: Store, e: Entry)
    requires ValidLimits(l) && Represents(l, h, s)
    requires forall i | 0 <= i < |h| :: h[i].at <= e.at
    requires e.admitted <==> Allows(l, s, e.at)
    ensures var s' := AfterCheck(l, s, e.at, e.member);
            forall m | m in s'.zset :: IsLastAdmission(h + [e], m, s'.zset[m])
  {
    var s' := AfterCheck(l, s, e.at, e.member);
    forall m | m in s'.zset
      ensures IsLastAdmission(h + [e], m, s'.zset[m])
    {
      if e.admitted && m == e.member {
        assert (h + [e])[|h|] == Entry(s'.zset[m], m, true);
      } else {
        LastAdmissionStays(h, e, m, s.zset[m]);
      }
    }
  }

  lemma MembersStep(l: Limits, h: seq<Entry>, s: Store, e: Entry)
    requires ValidLimits(l) && Represents(l, h, s) && (h != [] ==> LastAt(h) <= e.at)
    requires e.admitted <==> Allows(l, s, e.at)
    ensures AdmittedSince(h + [e], EvictBelow(l, e.at)) <= AfterCheck(l, s, e.at, e.member).zset.Keys
  {
    TrimmedIsWindow(l, h, s, e.at);
    SinceGrows(h, e, EvictBelow(l, e.at));
  }

  lemma SinceGrows(h: seq<Entry>, e: Entry, bound: int)
    ensures AdmittedSince(h + [e], bound) <= AdmittedSince(h, bound) + if e.admitted then {e.member} else {}
  {
  }

  lemma ExpiryStep(l: Limits, h: seq<Entry>, s: Store, e: Entry)
    requires ExpiryFits(l, h, s)
    requires forall i | 0 <= i < |h| :: h[i].at <= e.at
    requires e.admitted <==> Allows(l, s, e.at)
    ensures ExpiryFits(l, h + [e], AfterCheck(l, s, e.at, e.member))
  {
  }

  lemma RepresentsStep(l: Limits, h: seq<Entry>, s: Store, e: Entry, h': seq<Entry>)
    requires ValidLimits(l) && Represents(l, h, s) && h' == h + [e]
    requires forall i | 0 <= i < |h| :: h[i].at <= e.at
    requires e.admitted <==> Allows(l, s, e.at)
    ensures Represents(l, h', AfterCheck(l, s, e.at, e.member))
  {
    ScoresStep(l, h, s, e);
    MembersStep(l, h, s, e);
    ExpiryStep(l, h, s, e);
    var s' := AfterCheck(l, s, e.at, e.member);
    forall i | 0 <= i < |h'| && h'[i].admitted && h'[i].at >= EvictBelow(l, LastAt(h'))
      ensures h'[i].member in s'.zset
    {
      assert h'[i].member in AdmittedSince(h', EvictBelow(l, e.at));
    }
  }

  lemma LastAdmissionStays(h: seq<Entry>, e: Entry, m: string, score: int)
    requires IsLastAdmission(h, m, score) && !(e.admitted && e.member == m)
    ensures IsLastAdmission(h + [e], m, score)
  {
    var i :| 0 <= i < |h| && h[i] == Entry(score, m, true);
    assert (h + [e])[i] == Entry(score, m, true);
  }

  lemma {:induction false} StoreRepresents(l: Limits, h: seq<Entry>)
    requires ValidLimits(l) && Legal(l, h)
    ensures Represents(l, h, StoreAfter(l, h))
  {
    if h != [] {
      var pre, e := h[..|h| - 1], h[|h| - 1];
      StoreRepresents(l, pre);
      TimesGrow(l, h);
      RepresentsStep(l, pre, StoreAfter(l, pre), e, h);
    }
  }

  /**
  Refinement: with a clock that never goes back, the trimmed and expiring set admits exactly when
  fewer than limit distinct members were admitted within the window, over the whole history.
  */
  lemma DecidesAsFullLog(l: Limits, h: seq<Entry>, now: int)
    requires ValidLimits(l) && Legal(l, h)
    requires h != [] ==> LastAt(h) <= now
    ensures Allows(l, StoreAfter(l, h), now) <==> |AdmittedSince(h, EvictBelow(l, now))| < l.limit
    ensures Trimmed(l, StoreAfter(l, h), now).Keys == AdmittedSince(h, EvictBelow(l, now))
  {
    StoreRepresents(l, h);
    TrimmedIsWindow(l, h, StoreAfter(l, h), now);
    SameSize(Trimmed(l, StoreAfter(l, h), now));
  }

  lemma SameSize(m: map<string, int>)
    ensures |m| == |m.Keys|
  {
  }

  // ---------------------------------------------------------------- safety

  /** Members admitted from one time to another, both included. */
  ghost function AdmittedWithin(h: seq<Entry>, from: int, to: int): set<string> {
    set i | 0 <= i < |h| && h[i].admitted && from <= h[i].at <= to :: h[i].member
  }

  lemma SubsetSize<T>(a: set<T>, b: set<T>)
    requires a <= b
    ensures |a| <= |b|
  {
    assert b == a + (b - a);
  }

  lemma WithinGrows(pre: seq<Entry>, e: Entry, h: seq<Entry>, from: int, to: int, bound: int)
    requires h == pre + [e]
    ensures bound <= from ==> |AdmittedWithin(h, from, to)| <= |AdmittedSince(pre, bound)| + 1
    ensures !(e.admitted && from <= e.at <= to) ==> AdmittedWithin(h, from, to) == AdmittedWithin(pre, from, to)
  {
    assert forall i | 0 <= i < |pre| :: pre[i] == h[i];
    if bound <= from {
      SubsetSize(AdmittedWithin(h, from, to), AdmittedSince(pre, bound) + {e.member});
    }
  }

  /**
  Safety: the distinct members admitted in any closed interval of length window - eps never
  exceed the limit.
  */
  lemma {:induction false} NeverOverLimit(l: Limits, h: seq<Entry>, from: int, to: int)
    requires ValidLimits(l) && Legal(l, h)
    requires to - from <= l.windowSeconds * 1_000_000 - l.rounding.eps
    ensures |AdmittedWithin(h, from, to)| <= l.limit
  {
    if h == [] {
      assert AdmittedWithin(h, from, to) == {};
    } else {
      var pre, e := h[..|h| - 1], h[|h| - 1];
      WithinGrows(pre, e, h, from, to, EvictBelow(l, e.at));
      if e.admitted && from <= e.at <= to {
        DecidesAsFullLog(l, pre, e.at);
      } else {
        NeverOverLimit(l, pre, from, to);
      }
    }
  }

  ghost function AdmissionsWithin(h: seq<Entry>, from: int, to: int): set<nat> {
    set i: nat | i < |h| && h[i].admitted && from <= h[i].at <= to
  }

  /** No two of these entries share a member. */
  ghost predicate DistinctMembers(h: seq<Entry>, indices: set<nat>)
    requires forall i | i in indices :: i < |h|
  {
    forall i, j | i in indices && j in indices && i != j :: h[i].member != h[j].member
  }

  ghost function MembersOf(h: seq<Entry>, indices: set<nat>): set<string>
    requires forall i | i in indices :: i < |h|
  {
    set i | i in indices :: h[i].member
  }

  lemma {:induction false} DistinctCount(h: seq<Entry>, indices: set<nat>)
    requires (forall i | i in indices :: i < |h|) && DistinctMembers(h, indices)
    ensures |MembersOf(h, indices)| == |indices|
    decreases |indices|
  {
    if indices != {} {
      var i :| i in indices;
      DistinctCount(h, indices - {i});
      assert MembersOf(h, indices) == MembersOf(h, indices - {i}) + {h[i].member};
    }
  }

  /**
  That bounds the requests themselves when no two admitted in the interval share a member, whatever
  was rejected or admitted at other times.
  */
  lemma RequestsNeverOverLimit(l: Limits, h: seq<Entry>, from: int, to: int)
    requires ValidLimits(l) && Legal(l, h) && DistinctMembers(h, AdmissionsWithin(h, from, to))
    requires to - from <= l.windowSeconds * 1_000_000 - l.rounding.eps
    ensures |AdmissionsWithin(h, from, to)| <= l.limit
  {
    NeverOverLimit(l, h, from, to);
    var indices := AdmissionsWithin(h, from, to);
    DistinctCount(h, indices);
    assert MembersOf(h, indices) == AdmittedWithin(h, from, to);
  }

  /** A limit of one bounds requests whatever their members. */
  lemma {:induction false} LimitOneCountsRequests(l: Limits, h: seq<Entry>, from: int, to: int)
    requires ValidLimits(l) && l.limit == 1 && Legal(l, h)
    requires to - from <= l.windowSeconds * 1_000_000 - l.rounding.eps
    ensures |AdmissionsWithin(h, from, to)| <= 1
  {
    if h == [] {
      assert AdmissionsWithin(h, from, to) == {};
    } else {
      var pre, e := h[..|h| - 1], h[|h| - 1];
      LimitOneCountsRequests(l, pre, from, to);
      if e.admitted && from <= e.at <= to {
        DecidesAsFullLog(l, pre, e.at);
        OnlyTheLast(pre, e, h, from, to, EvictBelow(l, e.at));
      } else {
        assert AdmissionsWithin(h, from, to) == AdmissionsWithin(pre, from, to);
      }
    }
  }

  lemma OnlyTheLast(pre: seq<Entry>, e: Entry, h: seq<Entry>, from: int, to: int, bound: int)
    requires h == pre + [e] && |AdmittedSince(pre, bound)| < 1 && bound <= from
    ensures |AdmissionsWithin(h, from, to)| <= 1
  {
    var since := AdmittedSince(pre, bound);
    assert forall i | 0 <= i < |pre| && pre[i].admitted && pre[i].at >= bound :: pre[i].member in since;
    assert AdmissionsWithin(h, from, to) <= {|pre|};
    SubsetSize(AdmissionsWithin(h, from, to), {|pre|});
  }

  function Repeated(e: Entry, n: nat): seq<Entry> {
    if n == 0 then [] else Repeated(e, n - 1) + [e]
  }

  /** When they do share one, nothing bounds them: any number is admitted at once, for any limit above 1. */
  lemma RepeatedMemberIsUnlimited(l: Limits, now: int, member: string, n: nat)
    requires ValidLimits(l) && l.limit >= 2
    ensures var h := Repeated(Entry(now, member, true), n);
            Legal(l, h) && |h| == n && forall i | 0 <= i < n :: i in AdmissionsWithin(h, now, now)
  {
    RepeatedIs(Entry(now, member, true), n);
    RepeatsAreLegal(l, Entry(now, member, true), Repeated(Entry(now, member, true), n));
  }

  /** A history of one and the same admission. */
  predicate OnlyRepeats(h: seq<Entry>, e: Entry) {
    forall i | 0 <= i < |h| :: h[i] == e
  }

  lemma {:induction false} RepeatsAreLegal(l: Limits, e: Entry, h: seq<Entry>)
    requires ValidLimits(l) && l.limit >= 2 && e.admitted && OnlyRepeats(h, e)
    ensures Legal(l, h)
  {
    if h != [] {
      var pre := h[..|h| - 1];
      RepeatsAreLegal(l, e, pre);
      RepeatsCountOnce(e, pre, EvictBelow(l, e.at));
      DecidesAsFullLog(l, pre, e.at);
    }
  }

  lemma RepeatsCountOnce(e: Entry, h: seq<Entry>, bound: int)
    requires OnlyRepeats(h, e)
    ensures |AdmittedSince(h, bound)| <= 1
  {
    SubsetSize(AdmittedSince(h, bound), {e.member});
  }

  lemma {:induction false} RepeatedIs(e: Entry, n: nat)
    ensures |Repeated(e, n)| == n && forall i | 0 <= i < n :: Repeated(e, n)[i] == e
  {
    if n > 0 {
      RepeatedIs(e, n - 1);
    }
  }

  // ---------------------------------------------------------------- the retry hint

  /** The set never holds more than the limit, so a rejection always finds exactly the limit. */
  lemma {:induction false} StoreIsBounded(l: Limits, h: seq<Entry>)
    requires l.limit >= 1 && Legal(l, h)
    ensures |StoreAfter(l, h).zset| <= l.limit
    ensures h != [] && !h[|h| - 1].admitted ==> |StoreAfter(l, h).zset| == l.limit
  {
    if h != [] {
      var pre, e := h[..|h| - 1], h[|h| - 1];
      StoreIsBounded(l, pre);
      var s := StoreAfter(l, pre);
      var kept := Trimmed(l, s, e.at);
      SubsetSize(kept.Keys, s.zset.Keys);
      SameSize(kept);
      SameSize(s.zset);
      if e.admitted {
        SameSize(kept[e.member := e.at]);
      }
    }
  }

  /** Rejections add nothing to count. */
  lemma RejectionsDoNotCount(h: seq<Entry>, rejected: seq<Entry>, from: int)
    requires forall e | e in rejected :: !e.admitted
    ensures AdmittedSince(h + rejected, from) == AdmittedSince(h, from)
  {
    var all := h + rejected;
    assert forall i | |h| <= i < |all| :: all[i] in rejected;
    assert forall i | 0 <= i < |h| :: h[i] == all[i];
  }

  /** A rejection with this oldest score, the latest entry of the history. */
  ghost predicate RejectedAt(l: Limits, h: seq<Entry>, oldest: int) {
    h != [] && Legal(l, h) && !h[|h| - 1].admitted && Oldest(StoreAfter(l, h).zset, oldest)
  }

  /** How many of a rejection's members are still inside a later bound. */
  lemma WindowAfterRejection(l: Limits, h: seq<Entry>, oldest: int, bound: int)
    requires ValidLimits(l) && RejectedAt(l, h, oldest) && EvictBelow(l, LastAt(h)) <= bound
    ensures |AdmittedSince(h, bound)| < l.limit <==> bound > oldest
  {
    var s, since := StoreAfter(l, h), AdmittedSince(h, bound);
    StoreRepresents(l, h);
    StoreIsBounded(l, h);
    SameSize(s.zset);
    assert since <= s.zset.Keys;
    if bound > oldest {
      var m :| m in s.zset && s.zset[m] == oldest;
      assert m !in since;
      SubsetSize(since, s.zset.Keys - {m});
    } else {
      forall m | m in s.zset
        ensures m in since
      {
        var i :| 0 <= i < |h| && h[i] == Entry(s.zset[m], m, true);
        assert h[i].member in since;
      }
      SubsetSize(s.zset.Keys, since);
    }
  }

  /**
  The retry hint is tight: until something is admitted, a later check is admitted exactly when its
  eviction bound, as rounded, has passed the oldest score; so it is rejected up to oldest + window
  and admitted after it, give or take that rounding.
  */
  lemma RetryHintIsTight(l: Limits, h: seq<Entry>, rejected: seq<Entry>, oldest: int, t: int)
    requires ValidLimits(l) && RejectedAt(l, h, oldest)
    requires Legal(l, h + rejected) && LastAt(h + rejected) <= t
    requires forall e | e in rejected :: !e.admitted
    ensures var reset, eps := oldest + Window(l), l.rounding.eps;
            var allowed := Allows(l, StoreAfter(l, h + rejected), t);
            && (allowed <==> EvictBelow(l, t) > oldest)
            && (t + eps <= reset ==> !allowed)
            && (t - eps > reset ==> allowed)
            && (eps == 0 ==> (allowed <==> t > reset))
  {
    var all := h + rejected;
    DecidesAsFullLog(l, all, t);
    RejectionsDoNotCount(h, rejected, EvictBelow(l, t));
    TimesGrow(l, all);
    assert all[|h| - 1].at <= t;
    WindowAfterRejection(l, h, oldest, EvictBelow(l, t));
  }

  /** What Retry-After says after a rejection now. */
  function RetryAfter(l: Limits, oldest: int, now: int): nat {
    if CeilSeconds(oldest + Window(l) - now) > 0 then CeilSeconds(oldest + Window(l) - now) else 0
  }

  /**
  Waiting for exactly the advertised whole seconds is enough if and only if the bound of the second
  check, as rounded, has passed the oldest score. It has whenever the whole seconds exceed the exact
  wait by more than the rounding; without rounding, exactly when the exact wait is not itself a
  whole number of seconds, because a score equal to the bound is kept.
  */
  lemma WaitingRetryAfter(l: Limits, h: seq<Entry>, oldest: int)
    requires ValidLimits(l) && RejectedAt(l, h, oldest)
    ensures var now, wait := LastAt(h), oldest + Window(l) - LastAt(h);
            var waited := RetryAfter(l, oldest, now) * SECOND;
            var enough := Allows(l, StoreAfter(l, h), now + waited);
            && wait >= -l.rounding.eps
            && (enough <==> l.rounding.at(now + waited - Window(l)) > oldest)
            && (waited - wait > l.rounding.eps ==> enough)
            && (l.rounding.eps == 0 ==> (enough <==> wait % SECOND != 0))
  {
    var now := LastAt(h);
    var pre := h[..|h| - 1];
    var m :| m in StoreAfter(l, h).zset && StoreAfter(l, h).zset[m] == oldest;
    assert m in Trimmed(l, StoreAfter(l, pre), now);
    assert h + [] == h;
    var wait := oldest + Window(l) - now;
    if wait >= 0 {
      WholeSeconds(wait);
    }
    RetryHintIsTight(l, h, [], oldest, now + RetryAfter(l, oldest, now) * SECOND);
  }

  lemma WholeSeconds(wait: nat)
    ensures CeilSeconds(wait) >= 0
    ensures CeilSeconds(wait) * SECOND >= wait
    ensures CeilSeconds(wait) * SECOND > wait <==> wait % SECOND != 0
  {
  }

  lemma FirstIsAdmitted(l: Limits, at: int, member: string)
    requires ValidLimits(l)
    ensures Legal(l, [Entry(at, member, true)])
    ensures StoreAfter(l, [Entry(at, member, true)]) == Store(map[member := at], Some(Millis(at) + (l.windowSeconds + 1) * 1000))
  {
    var one := [Entry(at, member, true)];
    assert one[..0] == [];
    assert Trimmed(l, EMPTY, at) == map[];
  }

  /** One admission and, within its window, one rejection, at limit one. */
  lemma AdmittedThenRejected(l: Limits, a: int, d: nat, member: string) returns (h: seq<Entry>)
    requires ValidLimits(l) && l.limit == 1 && d < SECOND && EvictBelow(l, a + d) <= a
    ensures RejectedAt(l, h, a) && LastAt(h) == a + d
  {
    var one := [Entry(a, member, true)];
    FirstIsAdmitted(l, a, member);
    h := one + [Entry(a + d, member, false)];
    assert h[..1] == one;
    var s := StoreAfter(l, one);
    assert Alive(s, a + d) == s;
    assert Trimmed(l, s, a + d) == map[member := a];
    assert member in StoreAfter(l, h).zset;
  }

  /**
  With rounding, whole seconds decide nothing: after a rejection d microseconds into the window the
  advertised wait is enough exactly if a + d rounds above a, though the exact wait is whole just for d = 0.
  */
  lemma RoundingDecidesRetry(l: Limits, a: int, d: nat) returns (h: seq<Entry>)
    requires ValidLimits(l) && l.limit == 1 && d < SECOND && d + l.rounding.eps <= Window(l)
    ensures RejectedAt(l, h, a) && LastAt(h) == a + d
    ensures (a + Window(l) - LastAt(h)) % SECOND == 0 <==> d == 0
    ensures Allows(l, StoreAfter(l, h), LastAt(h) + RetryAfter(l, a, LastAt(h)) * SECOND) <==> l.rounding.at(a + d) > a
  {
    h := AdmittedThenRejected(l, a, d, "");
    WaitingRetryAfter(l, h, a);
    WholeWindow(l, d);
  }

  lemma WholeWindow(l: Limits, d: nat)
    requires l.windowSeconds >= 1 && d < SECOND
    ensures CeilSeconds(Window(l) - d) == l.windowSeconds
    ensures (Window(l) - d) % SECOND == 0 <==> d == 0
  {
  }

  // ---------------------------------------------------------------- the script

  /** One team's key on the Redis server, with the history of checks it stands for. */
  class TeamKey {
    const limits: Limits
    var store: Store
    ghost var history: seq<Entry>

    ghost predicate Valid()
      reads this
    {
      ValidLimits(limits) && Legal(limits, history) && store == StoreAfter(limits, history)
    }

    constructor (limits: Limits)
      requires ValidLimits(limits)
      ensures Valid() && this.limits == limits && history == []
    {
      this.limits := limits;
      store := EMPTY;
      history := [];
    }

    /** ZREMRANGEBYSCORE up to the bound, exclusive; an emptied key is gone with its time to live. */
    method Evict(now: int) returns (count: nat)
      modifies this`store
      ensures store.zset == Trimmed(limits, old(store), now) && count == |store.zset|
      ensures store.expireAtMs == if store.zset == map[] then None else Alive(old(store), now).expireAtMs
    {
      if store.expireAtMs.Some? && Millis(now) > store.expireAtMs.value {
        store := EMPTY;
      }
      var bound := limits.rounding.at(now - Window(limits));
      var kept := map m | m in store.zset && store.zset[m] >= bound :: store.zset[m];
      store := Store(kept, if kept == map[] then None else store.expireAtMs);
      return |kept|;
    }

    /** One atomic run: evict, count, and admit, or report when a slot frees. */
    method Run(now: int, member: string) returns (r: CheckResult, ghost oldest: int)
      requires limits.limit >= 1
      modifies this`store
      ensures store == AfterCheck(limits, old(store), now, member)
      ensures r.allowed <==> Allows(limits, old(store), now)
      ensures r.allowed ==> r == CheckResult(true, |Trimmed(limits, old(store), now)| + 1, limits.rounding.at(now + Window(limits)), 0)
      ensures forall m :: m in store.zset && !(r.allowed && m == member) <==>
                            && m in old(store).zset && !(r.allowed && m == member)
                            && (old(store).expireAtMs.Some? ==> now / 1000 <= old(store).expireAtMs.value)
                            && old(store).zset[m] >= limits.rounding.at(now - limits.windowSeconds * 1_000_000)
      ensures forall m | m in store.zset && !(r.allowed && m == member) :: store.zset[m] == old(store).zset[m]
      ensures r.allowed ==>
                && member in store.zset && store.zset[member] == now
                && store.expireAtMs == Some(now / 1000 + (limits.windowSeconds + 1) * 1000)
                && r.resetAt == limits.rounding.at(now + limits.windowSeconds * 1_000_000)
      ensures !r.allowed ==>
                var wait := oldest + limits.windowSeconds * 1_000_000 - now;
                && r.resetAt == limits.rounding.at(oldest + limits.windowSeconds * 1_000_000)
                && if wait <= 0 then r.retryAfterSeconds == 0
                   else (r.retryAfterSeconds - 1) * 1_000_000 < wait <= r.retryAfterSeconds * 1_000_000
      ensures !r.allowed ==>
                && Oldest(store.zset, oldest)
                && r == CheckResult(false, |store.zset|, limits.rounding.at(oldest + Window(limits)), RetryAfter(limits, oldest, now))
    {
      var count := Evict(now);
      if count < limits.limit {
        oldest := now;
        store := Store(store.zset[member := now], Some(Millis(now) + (limits.windowSeconds + 1) * 1000));
        r := CheckResult(true, count + 1, limits.rounding.at(now + Window(limits)), 0);
      } else {
        var score := OldestScore(store.zset);
        oldest := score;
        r := CheckResult(false, count, limits.rounding.at(score + Window(limits)), RetryAfter(limits, score, now));
      }
    }

    /**
    check: the answer depends on the members admitted within the window, over the whole history,
    and a rejection finds exactly the limit.
    */
    method Check(now: int, member: string) returns (r: CheckResult, ghost oldest: int)
      requires Valid() && (history != [] ==> LastAt(history) <= now)
      modifies this
      ensures Valid() && history == old(history) + [Entry(now, member, r.allowed)]
      ensures r.allowed <==> |AdmittedSince(old(history), EvictBelow(limits, now))| < limits.limit
      ensures EvictBelow(limits, now) == limits.rounding.at(now - limits.windowSeconds * 1_000_000)
      ensures r.allowed ==> r.currentCount == |AdmittedSince(old(history), EvictBelow(limits, now))| + 1
      ensures r.allowed ==> r.resetAt == limits.rounding.at(now + Window(limits)) && r.retryAfterSeconds == 0
      ensures !r.allowed ==> r.currentCount == limits.limit && Remaining(limits, r) == 0
      ensures !r.allowed ==> RejectedAt(limits, history, oldest)
      ensures !r.allowed ==>
                && r.resetAt == limits.rounding.at(oldest + Window(limits))
                && r.retryAfterSeconds == RetryAfter(limits, oldest, now)
    {
      DecidesAsFullLog(limits, history, now);
      SameSize(Trimmed(limits, store, now));
      r, oldest := Run(now, member);
      ghost var before := history;
      history := history + [Entry(now, member, r.allowed)];
      assert history[..|history| - 1] == before;
      StoreIsBounded(limits, history);
    }
  }
}
