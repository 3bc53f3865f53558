/**
The budget ledger as an atomic object: the three tables a committed database holds and the
only ways a committed database may change. Money is counted in whole micro-dollars, the
quantum of the NUMERIC(12,6) columns.
*/
module Ledger {
  import opened Wrappers
  import opened Sums

  /** Largest NUMERIC(12,6) amount, 999999.999999 dollars, in micro-dollars. */
  const MAX_AMOUNT: nat := 999_999_999_999

  datatype BudgetId = BudgetId(team: nat, start: int)
  datatype Budget = Budget(end: int, allocation: nat, remaining: nat)

  /** The unique key (team, Idempotency-Key); every row id stands for exactly one of these. */
  datatype Slot = Slot(team: nat, key: string)

  /** A terminal status carries what the table's CHECK constraints tie to it. */
  datatype Status = Pending | Completed(snapshot: string) | Failed(errorCode: string)
  datatype KeyRow = KeyRow(period: int, hash: string, status: Status, reserved: nat, expiresAt: int)
  datatype Usage = Usage(succeeded: bool, actualCost: nat, promptVersion: Option<nat>, details: Details)

  /** The rest of a usage record. */
  datatype Details = Details(
    primaryProvider: string, primaryModel: string, finalProvider: Option<string>, finalModel: Option<string>,
    promptTokens: int, completionTokens: int, latencyMs: int, fallbackUsed: bool)

  /** versions holds the ids of the prompt versions that exist; usage records have a foreign key to them. */
  datatype Tables = Tables(budgets: map<BudgetId, Budget>, keys: map<Slot, KeyRow>, usage: map<Slot, Usage>, versions: set<nat>)

  function BudgetOf(s: Slot, row: KeyRow): BudgetId {
    BudgetId(s.team, row.period)
  }

  function Min(a: int, b: int): int {
    if a <= b then a else b
  }

  /** The periods get_current_budget_period selects from for one day. */
  function ActivePeriods(t: Tables, team: nat, day: int): set<BudgetId> {
    set b | b in t.budgets && b.team == team && b.start <= day < t.budgets[b].end
  }

  lemma OnlyOne(bs: set<BudgetId>, x: BudgetId, y: BudgetId)
    requires |bs| == 1 && x in bs && y in bs
    ensures x == y
  {
    assert |bs - {x}| == 0;
  }

  function TheOne(bs: set<BudgetId>): (b: BudgetId)
    requires |bs| == 1
    ensures b in bs
  {
    assert forall x, y | x in bs && y in bs :: x == y by {
      forall x, y | x in bs && y in bs
        ensures x == y
      {
        OnlyOne(bs, x, y);
      }
    }
    var b :| b in bs;
    b
  }

  /** The active periods in the fields of the budgets: none, one, or two that differ. */
  lemma CoveringPeriods(t: Tables, team: nat, day: int)
    ensures forall b :: b in ActivePeriods(t, team, day) <==> b in t.budgets && b.team == team && b.start <= day < t.budgets[b].end
    ensures |ActivePeriods(t, team, day)| == 1 ==> exists b :: b in ActivePeriods(t, team, day)
    ensures |ActivePeriods(t, team, day)| > 1 <==> exists b, c ::
              && b in t.budgets && c in t.budgets && b != c && b.team == c.team == team
              && b.start <= day < t.budgets[b].end && c.start <= day < t.budgets[c].end
  {
    var periods := ActivePeriods(t, team, day);
    if |periods| == 1 {
      var b :| b in periods;
      forall x | x in periods
        ensures x == b
      {
        OnlyOne(periods, x, b);
      }
    } else if |periods| > 1 {
      TwoOf(periods);
    } else {
      assert periods == {};
    }
  }

  lemma TwoOf(bs: set<BudgetId>)
    requires |bs| > 1
    ensures exists b, c :: b in bs && c in bs && b != c
  {
    var b :| b in bs;
    assert |bs - {b}| > 0;
    var c :| c in bs - {b};
  }

  // ---------------------------------------------------------------- what a slot costs its budget

  /** What slot s holds against budget b: its reservation while pending, then the capped true cost. */
  function Charge(t: Tables, b: BudgetId, s: Slot): int {
    if s !in t.keys || BudgetOf(s, t.keys[s]) != b then 0
    else if t.keys[s].status.Pending? then t.keys[s].reserved
    else if s in t.usage then Min(t.usage[s].actualCost, t.keys[s].reserved)
    else 0
  }

  ghost function Held(t: Tables, b: BudgetId): int {
    Sum(t.keys.Keys, s => Charge(t, b, s))
  }

  /** allocation = remaining + reservations of pending rows + capped costs of settled rows. */
  ghost predicate Conserved(t: Tables) {
    forall b | b in t.budgets :: t.budgets[b].allocation == t.budgets[b].remaining + Held(t, b)
  }

  /** A usage record exists exactly when its row is settled, and agrees with it on success. */
  ghost predicate UsageIffSettled(t: Tables) {
    && t.usage.Keys <= t.keys.Keys
    && (forall s | s in t.keys :: s in t.usage <==> !t.keys[s].status.Pending?)
    && (forall s | s in t.usage :: t.usage[s].succeeded <==> t.keys[s].status.Completed?)
  }

  /** The foreign key from idempotency rows to budgets, and the column ranges. */
  ghost predicate WellFormed(t: Tables) {
    && (forall s | s in t.keys :: BudgetOf(s, t.keys[s]) in t.budgets)
    && (forall s | s in t.keys :: t.keys[s].reserved <= MAX_AMOUNT)
    && (forall b | b in t.budgets :: t.budgets[b].remaining <= t.budgets[b].allocation <= MAX_AMOUNT)
  }

  /** The version a usage record names, if any, exists. */
  predicate VersionStands(t: Tables, usage: Usage) {
    usage.promptVersion.Some? ==> usage.promptVersion.value in t.versions
  }

  /** The foreign key from usage records to prompt versions. */
  ghost predicate VersionsStand(t: Tables) {
    forall s | s in t.usage :: VersionStands(t, t.usage[s])
  }

  ghost predicate Sound(t: Tables) {
    WellFormed(t) && UsageIffSettled(t) && VersionsStand(t) && Conserved(t)
  }

  // ---------------------------------------------------------------- the atomic actions

  ghost predicate CanReserve(t: Tables, s: Slot, row: KeyRow) {
    && s !in t.keys
    && row.status.Pending?
    && row.reserved <= MAX_AMOUNT
    && BudgetOf(s, row) in t.budgets
    && row.reserved <= t.budgets[BudgetOf(s, row)].remaining
  }

  function Reserve(t: Tables, s: Slot, row: KeyRow): Tables
    requires BudgetOf(s, row) in t.budgets
    requires row.reserved <= t.budgets[BudgetOf(s, row)].remaining
  {
    var b := BudgetOf(s, row);
    t.(keys := t.keys[s := row],
       budgets := t.budgets[b := t.budgets[b].(remaining := t.budgets[b].remaining - row.reserved)])
  }

  /** The unused part of a reservation; an overrun is absorbed, never charged. */
  function RefundDue(reserved: nat, actualCost: nat): (refund: nat)
    ensures refund + Min(actualCost, reserved) == reserved
  {
    if actualCost >= reserved then 0 else reserved - actualCost
  }

  ghost predicate CanSettle(t: Tables, s: Slot, status: Status, usage: Usage) {
    && s in t.keys
    && t.keys[s].status.Pending?
    && !status.Pending?
    && (usage.succeeded <==> status.Completed?)
    && BudgetOf(s, t.keys[s]) in t.budgets
    && VersionStands(t, usage)
  }

  function Settle(t: Tables, s: Slot, status: Status, usage: Usage): Tables
    requires s in t.keys && BudgetOf(s, t.keys[s]) in t.budgets
  {
    var row := t.keys[s];
    var b := BudgetOf(s, row);
    var left := t.budgets[b].remaining + RefundDue(row.reserved, usage.actualCost);
    Tables(t.budgets[b := t.budgets[b].(remaining := left)],
           t.keys[s := row.(status := status)],
           t.usage[s := usage],
           t.versions)
  }

  /** A budget period starts whole: remaining equals allocation. */
  function OpenBudget(t: Tables, b: BudgetId, end: int, allocation: nat): Tables {
    t.(budgets := t.budgets[b := Budget(end, allocation, allocation)])
  }

  ghost predicate ReserveStep(t: Tables, t': Tables) {
    exists s: Slot, row: KeyRow :: CanReserve(t, s, row) && t' == Reserve(t, s, row)
  }

  ghost predicate SettleStep(t: Tables, t': Tables) {
    exists s: Slot, status: Status, usage: Usage ::
      CanSettle(t, s, status, usage) && t' == Settle(t, s, status, usage)
  }

  ghost predicate OpenStep(t: Tables, t': Tables) {
    exists b: BudgetId, end: int, allocation: nat ::
      b !in t.budgets && allocation <= MAX_AMOUNT && t' == OpenBudget(t, b, end, allocation)
  }

  /** Prompt versions come and go, but none that a usage record names. */
  ghost predicate VersionStep(t: Tables, t': Tables) {
    t' == t.(versions := t'.versions) && VersionsStand(t')
  }

  /** Everything a committed ledger may ever do. */
  ghost predicate Next(t: Tables, t': Tables) {
    t' == t || ReserveStep(t, t') || SettleStep(t, t') || OpenStep(t, t') || VersionStep(t, t')
  }

  // ---------------------------------------------------------------- conservation

  lemma ChargesAreHeld(t: Tables, b: BudgetId)
    ensures Held(t, b) >= 0
    ensures forall s | s in t.keys :: Charge(t, b, s) <= Held(t, b)
  {
    SumAtLeast(t.keys.Keys, s => Charge(t, b, s));
  }

  /** Changing only slot s's rows moves every budget's held total by that slot's charge alone. */
  lemma HeldMoves(t: Tables, t': Tables, s: Slot, b: BudgetId)
    requires t'.keys.Keys == t.keys.Keys + {s}
    requires forall x | x in t.keys && x != s :: Charge(t', b, x) == Charge(t, b, x)
    ensures Held(t', b) == Held(t, b) - Charge(t, b, s) + Charge(t', b, s)
  {
    var f := x => Charge(t, b, x);
    var g := x => Charge(t', b, x);
    SumUpdate(t.keys.Keys, f, g, s);
    if s in t.keys {
      SumRemove(t.keys.Keys, f, s);
    } else {
      assert t.keys.Keys - {s} == t.keys.Keys;
    }
  }

  lemma ReserveConserves(t: Tables, s: Slot, row: KeyRow, b: BudgetId)
    requires Sound(t) && CanReserve(t, s, row) && b in t.budgets
    ensures var t' := Reserve(t, s, row);
            t'.budgets[b].allocation == t'.budgets[b].remaining + Held(t', b)
  {
    assert s !in t.usage;
    HeldMoves(t, Reserve(t, s, row), s, b);
    assert t.budgets[b].allocation == t.budgets[b].remaining + Held(t, b);
  }

  lemma ReserveKeepsSound(t: Tables, s: Slot, row: KeyRow)
    requires Sound(t) && CanReserve(t, s, row)
    ensures Sound(Reserve(t, s, row))
  {
    var t' := Reserve(t, s, row);
    assert s !in t.usage;
    forall b | b in t'.budgets
      ensures t'.budgets[b].allocation == t'.budgets[b].remaining + Held(t', b)
    {
      ReserveConserves(t, s, row, b);
    }
  }

  /** The refund guard: what is due always fits under the allocation. */
  lemma RefundFits(t: Tables, s: Slot, actualCost: nat)
    requires Sound(t) && s in t.keys && t.keys[s].status.Pending?
    ensures var b := t.budgets[BudgetOf(s, t.keys[s])];
            b.remaining + RefundDue(t.keys[s].reserved, actualCost) <= b.allocation
  {
    ChargesAreHeld(t, BudgetOf(s, t.keys[s]));
    assert Charge(t, BudgetOf(s, t.keys[s]), s) == t.keys[s].reserved;
  }

  /**
  Settling charges the slot its true cost, but no more than its reservation, and gives the budget the
  rest of the reservation back; nothing else moves.
  */
  lemma SettleCharges(t: Tables, s: Slot, status: Status, usage: Usage)
    requires CanSettle(t, s, status, usage)
    ensures var row, t' := t.keys[s], Settle(t, s, status, usage);
            var b := BudgetId(s.team, row.period);
            var charged := if usage.actualCost <= row.reserved then usage.actualCost else row.reserved;
            && Charge(t', b, s) == charged
            && t'.budgets == t.budgets[b := t.budgets[b].(remaining := t.budgets[b].remaining + row.reserved - charged)]
            && t'.keys == t.keys[s := KeyRow(row.period, row.hash, status, row.reserved, row.expiresAt)]
            && t'.usage == t.usage[s := usage] && t'.versions == t.versions
  {
  }

  lemma SettleConserves(t: Tables, s: Slot, status: Status, usage: Usage, b: BudgetId)
    requires Sound(t) && CanSettle(t, s, status, usage) && b in t.budgets
    ensures var t' := Settle(t, s, status, usage);
            t'.budgets[b].allocation == t'.budgets[b].remaining + Held(t', b)
  {
    var t' := Settle(t, s, status, usage);
    assert t.keys.Keys + {s} == t.keys.Keys;
    forall x | x in t.keys && x != s
      ensures Charge(t', b, x) == Charge(t, b, x)
    {
    }
    HeldMoves(t, t', s, b);
    assert t.budgets[b].allocation == t.budgets[b].remaining + Held(t, b);
  }

  lemma SettleKeepsShape(t: Tables, s: Slot, status: Status, usage: Usage)
    requires Sound(t) && CanSettle(t, s, status, usage)
    ensures WellFormed(Settle(t, s, status, usage)) && UsageIffSettled(Settle(t, s, status, usage))
    ensures VersionsStand(Settle(t, s, status, usage))
  {
    RefundFits(t, s, usage.actualCost);
  }

  lemma SettleKeepsSound(t: Tables, s: Slot, status: Status, usage: Usage)
    requires Sound(t) && CanSettle(t, s, status, usage)
    ensures Sound(Settle(t, s, status, usage))
  {
    SettleKeepsShape(t, s, status, usage);
    var t' := Settle(t, s, status, usage);
    forall b | b in t'.budgets
      ensures t'.budgets[b].allocation == t'.budgets[b].remaining + Held(t', b)
    {
      SettleConserves(t, s, status, usage, b);
    }
  }

  lemma OpenKeepsSound(t: Tables, b: BudgetId, end: int, allocation: nat)
    requires Sound(t) && b !in t.budgets && allocation <= MAX_AMOUNT
    ensures Sound(OpenBudget(t, b, end, allocation))
  {
    var t' := OpenBudget(t, b, end, allocation);
    forall c | c in t'.budgets
      ensures t'.budgets[c].allocation == t'.budgets[c].remaining + Held(t', c)
    {
      SumCongruent(t.keys.Keys, s => Charge(t, c, s), s => Charge(t', c, s));
      if c == b {
        SumCongruent(t.keys.Keys, s => Charge(t, b, s), s => 0);
        SumOfZero(t.keys.Keys);
      }
    }
  }

  lemma VersionsKeepSound(t: Tables, t': Tables)
    requires Sound(t) && VersionStep(t, t')
    ensures Sound(t')
  {
    forall b | b in t'.budgets
      ensures t'.budgets[b].allocation == t'.budgets[b].remaining + Held(t', b)
    {
      SumCongruent(t.keys.Keys, s => Charge(t, b, s), s => Charge(t', b, s));
    }
  }

  lemma {:induction false} SumOfZero(s: set<Slot>)
    ensures Sum(s, x => 0) == 0
    decreases |s|
  {
    if s != {} {
      var x :| x in s;
      SumRemove(s, y => 0, x);
      SumOfZero(s - {x});
    }
  }

  /** Every ledger action keeps the conservation law and the record-iff-settled law. */
  lemma NextKeepsSound(t: Tables, t': Tables)
    requires Sound(t) && Next(t, t')
    ensures Sound(t')
  {
    if ReserveStep(t, t') {
      var s: Slot, row: KeyRow :| CanReserve(t, s, row) && t' == Reserve(t, s, row);
      ReserveKeepsSound(t, s, row);
    } else if SettleStep(t, t') {
      var s: Slot, status: Status, usage: Usage :|
        CanSettle(t, s, status, usage) && t' == Settle(t, s, status, usage);
      SettleKeepsSound(t, s, status, usage);
    } else if OpenStep(t, t') {
      var b: BudgetId, end: int, allocation: nat :|
        b !in t.budgets && allocation <= MAX_AMOUNT && t' == OpenBudget(t, b, end, allocation);
      OpenKeepsSound(t, b, end, allocation);
    } else if VersionStep(t, t') {
      VersionsKeepSound(t, t');
    }
  }

  // ---------------------------------------------------------------- what later actions cannot undo

  /** Rows never disappear, keep who and what they are for, and are frozen once settled. */
  ghost predicate Preserves(t: Tables, t': Tables) {
    && (forall s | s in t.keys ::
          s in t'.keys && t'.keys[s].(status := t.keys[s].status) == t.keys[s])
    && (forall s | s in t.keys && !t.keys[s].status.Pending? :: t'.keys[s].status == t.keys[s].status)
    && (forall s | s in t.usage :: s in t'.usage && t'.usage[s] == t.usage[s])
    && (forall b | b in t.budgets :: b in t'.budgets && t'.budgets[b].allocation == t.budgets[b].allocation)
  }

  lemma ReservePreserves(t: Tables, s: Slot, row: KeyRow)
    requires CanReserve(t, s, row)
    ensures Preserves(t, Reserve(t, s, row))
  {
  }

  lemma SettlePreserves(t: Tables, s: Slot, status: Status, usage: Usage)
    requires UsageIffSettled(t) && CanSettle(t, s, status, usage)
    ensures Preserves(t, Settle(t, s, status, usage))
  {
    assert s !in t.usage;
  }

  lemma NextPreserves(t: Tables, t': Tables)
    requires Sound(t) && Next(t, t')
    ensures Preserves(t, t')
  {
    if ReserveStep(t, t') {
      var s: Slot, row: KeyRow :| CanReserve(t, s, row) && t' == Reserve(t, s, row);
      ReservePreserves(t, s, row);
    } else if SettleStep(t, t') {
      var s: Slot, status: Status, usage: Usage :|
        CanSettle(t, s, status, usage) && t' == Settle(t, s, status, usage);
      SettlePreserves(t, s, status, usage);
    }
  }

  lemma PreservesTransitive(t: Tables, t': Tables, t'': Tables)
    requires Preserves(t, t') && Preserves(t', t'')
    ensures Preserves(t, t'')
  {
    forall s | s in t.keys
      ensures s in t''.keys && t''.keys[s].(status := t.keys[s].status) == t.keys[s]
    {
      assert t'.keys[s].(status := t.keys[s].status) == t.keys[s];
    }
  }

  /** No slot is charged more than it reserved, and no budget more than its allocation. */
  lemma NeverOverspent(t: Tables, b: BudgetId)
    requires Sound(t) && b in t.budgets
    ensures 0 <= Held(t, b) <= t.budgets[b].allocation
    ensures forall s | s in t.keys && BudgetOf(s, t.keys[s]) == b ::
              Charge(t, b, s) <= Min(t.keys[s].reserved, t.budgets[b].allocation)
  {
    ChargesAreHeld(t, b);
    assert t.budgets[b].allocation == t.budgets[b].remaining + Held(t, b);
  }
}
