/**
The database code as it is written: sessions over a working copy, guarded updates, and the two
transactions. Each is proved to be one atomic ledger action or no change at all.
*/
module Transactions {
  import opened Wrappers
  import opened Ledger
  import opened Idempotency

  datatype DbError = InvalidInput | SeveralRows | RefundRefused | UniqueViolation | ForeignKeyViolation

  datatype SettlementResult = SettlementResult(claimed: bool, refunded: Option<nat>, costCapped: bool)

  datatype Txn1Result =
    | Txn1Acquired
    | Txn1Answered(answer: Answer)
    | Txn1NoActivePeriod
    | Txn1InsufficientBudget
    | Txn1Raised(error: DbError)

  /** Only a pending row can be claimed. */
  predicate Claimable(t: Tables, slot: Slot) {
    slot in t.keys && t.keys[slot].status.Pending?
  }

  predicate ValidAmount(amount: int) {
    0 < amount <= MAX_AMOUNT
  }

  class Database {
    var tables: Tables

    constructor (t: Tables)
      ensures tables == t
    {
      tables := t;
    }
  }

  /** A transaction: reads and writes its own view, published by Commit only. */
  class Session {
    const db: Database
    var work: Tables

    constructor (db: Database)
      ensures this.db == db && work == db.tables
    {
      this.db := db;
      work := db.tables;
    }

    method Commit()
      modifies db
      ensures db.tables == work
    {
      db.tables := work;
    }

    method Rollback()
      modifies this
      ensures work == db.tables
    {
      work := db.tables;
    }

    /** scalar_one_or_none: several matching periods raise. */
    method GetCurrentBudgetPeriod(team: nat, day: int) returns (r: Result<Option<BudgetId>, DbError>)
      ensures r == Ok(None) <==> forall b | b in work.budgets && b.team == team :: !(b.start <= day < work.budgets[b].end)
      ensures r.Ok? && r.value.Some? ==>
                var b := r.value.value;
                && b in work.budgets && b.team == team && b.start <= day < work.budgets[b].end
                && forall c | c in work.budgets && c.team == team && c.start <= day < work.budgets[c].end :: c == b
      ensures r.Err? <==> exists b, c ::
                && b in work.budgets && c in work.budgets && b != c && b.team == c.team == team
                && b.start <= day < work.budgets[b].end && c.start <= day < work.budgets[c].end
      ensures r.Err? ==> r.error == SeveralRows
      ensures var periods := ActivePeriods(work, team, day);
              && (r == Ok(None) <==> periods == {})
              && (r.Err? <==> |periods| > 1)
              && (r.Ok? && r.value.Some? ==> periods == {r.value.value})
    {
      var periods := ActivePeriods(work, team, day);
      assert forall b :: b in periods <==> b in work.budgets && b.team == team && b.start <= day < work.budgets[b].end;
      if periods == {} {
        return Ok(None);
      }
      if |periods| > 1 {
        TwoOf(periods);
        return Err(SeveralRows);
      }
      var b := TheOne(periods);
      forall x | x in periods
        ensures x == b
      {
        OnlyOne(periods, x, b);
      }
      return Ok(Some(b));
    }

    method ReserveBudget(b: BudgetId, amount: int) returns (r: Result<bool, DbError>)
      modifies this
      ensures r.Err? <==> !ValidAmount(amount)
      ensures r == Ok(true) <==> ValidAmount(amount) && b in old(work).budgets && old(work).budgets[b].remaining >= amount
      ensures r == Ok(true) ==>
                && work.budgets.Keys == old(work).budgets.Keys
                && work.budgets[b].remaining + amount == old(work).budgets[b].remaining
                && work == old(work).(budgets := old(work).budgets[b := old(work).budgets[b].(remaining := work.budgets[b].remaining)])
      ensures r != Ok(true) ==> work == old(work)
    {
      if !ValidAmount(amount) {
        return Err(InvalidInput);
      }
      if b in work.budgets && work.budgets[b].remaining >= amount {
        work := work.(budgets := work.budgets[b := work.budgets[b].(remaining := work.budgets[b].remaining - amount)]);
        return Ok(true);
      }
      return Ok(false);
    }

    method RefundBudget(b: BudgetId, amount: int) returns (r: Result<bool, DbError>)
      modifies this
      ensures r.Err? <==> !ValidAmount(amount)
      ensures r == Ok(true) <==> ValidAmount(amount) && b in old(work).budgets
                                 && old(work).budgets[b].remaining + amount <= old(work).budgets[b].allocation
      ensures r == Ok(true) ==>
                && work.budgets.Keys == old(work).budgets.Keys
                && work.budgets[b].remaining == old(work).budgets[b].remaining + amount
                && work == old(work).(budgets := old(work).budgets[b := old(work).budgets[b].(remaining := work.budgets[b].remaining)])
      ensures r != Ok(true) ==> work == old(work)
    {
      if !ValidAmount(amount) {
        return Err(InvalidInput);
      }
      if b in work.budgets && work.budgets[b].remaining + amount <= work.budgets[b].allocation {
        work := work.(budgets := work.budgets[b := work.budgets[b].(remaining := work.budgets[b].remaining + amount)]);
        return Ok(true);
      }
      return Ok(false);
    }

    /** Insert-or-report on the unique key. */
    method AcquireIdempotencySlot(slot: Slot, period: int, hash: string, reserved: int, now: int)
      returns (r: Result<Result<Acquire, AcquireError>, DbError>)
      modifies this
      ensures r.Err? <==> !(0 <= reserved <= MAX_AMOUNT)
      ensures r.Err? ==> r.error == InvalidInput
      ensures r == Ok(Ok(Acquired)) <==> 0 <= reserved <= MAX_AMOUNT && slot !in old(work).keys
      ensures r == Ok(Ok(Acquired)) ==>
                work == old(work).(keys := old(work).keys[slot := KeyRow(period, hash, Pending, reserved, now + TTL)])
      ensures r != Ok(Ok(Acquired)) ==> work == old(work)
      ensures r.Ok? && slot in old(work).keys ==>
                RaceAnswer(r.value) == Some(Precheck(old(work).keys[slot], hash, now))
    {
      if reserved < 0 || reserved > MAX_AMOUNT {
        return Err(InvalidInput);
      }
      if slot !in work.keys {
        work := work.(keys := work.keys[slot := KeyRow(period, hash, Pending, reserved, now + TTL)]);
        return Ok(Ok(Acquired));
      }
      RaceAgreesWithPrecheck(work.keys[slot], hash, now);
      return Ok(AcquireExisting(work.keys[slot], hash, now));
    }

    /** The conditional UPDATE that only a pending row satisfies. */
    method ClaimSettlement(slot: Slot, status: Status) returns (claimed: bool)
      requires !status.Pending?
      modifies this
      ensures claimed <==> slot in old(work).keys && old(work).keys[slot].status.Pending?
      ensures claimed ==>
                work == old(work).(keys := old(work).keys[slot := old(work).keys[slot].(status := status)])
      ensures !claimed ==> work == old(work)
    {
      claimed := slot in work.keys && work.keys[slot].status.Pending?;
      if claimed {
        work := work.(keys := work.keys[slot := work.keys[slot].(status := status)]);
      }
    }

    /**
    The body settle_success and settle_failure share: claim, re-read the row, refund the unused
    part, insert the usage record. An error leaves the view for the caller to roll back. In a sound
    database it fails exactly when it would claim the row but the prompt version is gone.
    */
    method SettleClaimed(slot: Slot, status: Status, usage: Usage) returns (r: Result<SettlementResult, DbError>)
      requires !status.Pending? && (usage.succeeded <==> status.Completed?)
      modifies this
      ensures Sound(old(work)) ==> (r.Err? <==> Claimable(old(work), slot) && !VersionStands(old(work), usage))
      ensures Sound(old(work)) && r.Err? ==> r.error == ForeignKeyViolation
      ensures r.Err? ==> r.error != InvalidInput
      ensures r.Ok? ==> (r.value.claimed <==> Claimable(old(work), slot))
      ensures r.Ok? && !r.value.claimed ==> work == old(work) && r.value.refunded.None?
      ensures Sound(old(work)) && r.Ok? && r.value.claimed ==>
                && CanSettle(old(work), slot, status, usage)
                && work == Settle(old(work), slot, status, usage)
                && r.value.refunded == Some(RefundDue(old(work).keys[slot].reserved, usage.actualCost))
                && (r.value.costCapped <==> usage.actualCost > old(work).keys[slot].reserved)
    {
      var claimed := ClaimSettlement(slot, status);
      if !claimed {
        return Ok(SettlementResult(false, None, false));
      }
      var row := work.keys[slot];
      var refund, capped := ComputeRefundAmount(row.reserved, usage.actualCost);
      ghost var sound := Sound(old(work));
      if sound {
        RefundFits(old(work), slot, usage.actualCost);
      }
      if refund != 0 {
        var ok := RefundBudget(BudgetOf(slot, row), refund);
        if ok != Ok(true) {
          return Err(RefundRefused);
        }
      } else {
        var b := BudgetOf(slot, row);
        assert b in work.budgets ==> work.budgets[b := work.budgets[b]] == work.budgets;
      }
      if slot in work.usage {
        return Err(UniqueViolation);
      }
      if usage.promptVersion.Some? && usage.promptVersion.value !in work.versions {
        return Err(ForeignKeyViolation);
      }
      work := work.(usage := work.usage[slot := usage]);
      return Ok(SettlementResult(true, Some(refund), capped));
    }
  }

  method ComputeRefundAmount(reserved: nat, actualCost: nat) returns (refund: nat, capped: bool)
    ensures refund == RefundDue(reserved, actualCost)
    ensures reserved - refund == Min(actualCost, reserved)
    ensures capped <==> actualCost > reserved
  {
    if actualCost >= reserved {
      return 0, actualCost > reserved;
    }
    return reserved - actualCost, false;
  }

  /** What follows the period lookup: insert the row, deduct, commit; or roll back and answer. */
  method AcquireSlot(txn: Session, b: BudgetId, slot: Slot, hash: string, cost: int, now: int) returns (r: Txn1Result)
    requires txn.work == txn.db.tables && b in txn.work.budgets && b.team == slot.team
    modifies txn, txn.db
    ensures !r.Txn1Acquired? ==> txn.db.tables == old(txn.db.tables)
    ensures r.Txn1Acquired? ==>
              && 0 <= cost
              && var row := KeyRow(b.start, hash, Pending, cost, now + TTL);
              && CanReserve(old(txn.db.tables), slot, row)
              && txn.db.tables == Reserve(old(txn.db.tables), slot, row)
    ensures var t := old(txn.db.tables);
            r == if !(0 <= cost <= MAX_AMOUNT) then Txn1Raised(InvalidInput)
                 else if slot in t.keys then Txn1Answered(Precheck(t.keys[slot], hash, now))
                 else if cost <= t.budgets[b].remaining then Txn1Acquired
                 else Txn1InsufficientBudget
  {
    var acquired := txn.AcquireIdempotencySlot(slot, b.start, hash, cost, now);
    if acquired.Err? {
      return Txn1Raised(acquired.error);
    }
    if acquired.value == Ok(Acquired) {
      if cost > 0 {
        var reserved := txn.ReserveBudget(b, cost);
        if reserved != Ok(true) {
          txn.Rollback();
          return Txn1InsufficientBudget;
        }
      } else {
        assert txn.db.tables.budgets[b := txn.db.tables.budgets[b]] == txn.db.tables.budgets;
      }
      txn.Commit();
      return Txn1Acquired;
    }
    var answer := RaceAnswer(acquired.value);
    txn.Rollback();
    return Txn1Answered(answer.value);
  }

  /** Transaction 1, statement by statement, from period lookup to commit or rollback. */
  method AcquireAndReserve(db: Database, slot: Slot, hash: string, cost: int, day: int, now: int) returns (r: Txn1Result)
    modifies db
    ensures !r.Txn1Acquired? ==> db.tables == old(db.tables)
    ensures r.Txn1Acquired? ==>
              exists b :: && ActivePeriods(old(db.tables), slot.team, day) == {b}
                          && 0 <= cost
                          && var row := KeyRow(b.start, hash, Pending, cost, now + TTL);
                          && CanReserve(old(db.tables), slot, row)
                          && db.tables == Reserve(old(db.tables), slot, row)
    ensures var t := old(db.tables);
            var periods := ActivePeriods(t, slot.team, day);
            && (r.Txn1NoActivePeriod? <==> periods == {})
            && (r == Txn1Raised(SeveralRows) <==> |periods| > 1)
            && (|periods| == 1 && 0 <= cost <= MAX_AMOUNT && slot in t.keys ==>
                  r == Txn1Answered(Precheck(t.keys[slot], hash, now)))
            && (|periods| == 1 && 0 <= cost <= MAX_AMOUNT && slot !in t.keys ==>
                  r == if forall b | b in periods :: cost <= t.budgets[b].remaining
                       then Txn1Acquired else Txn1InsufficientBudget)
            && (|periods| == 1 && !(0 <= cost <= MAX_AMOUNT) ==> r == Txn1Raised(InvalidInput))
  {
    var txn := new Session(db);
    var period := txn.GetCurrentBudgetPeriod(slot.team, day);
    if period.Err? {
      return Txn1Raised(period.error);
    }
    if period.value.None? {
      txn.Rollback();
      return Txn1NoActivePeriod;
    }
    assert period.value.value in ActivePeriods(db.tables, slot.team, day);
    r := AcquireSlot(txn, period.value.value, slot, hash, cost, now);
  }

  /** Transaction 1: one atomic Reserve against the budget that covers the day, or an answer and no change. */
  method RunTxn1(db: Database, slot: Slot, hash: string, cost: int, day: int, now: int) returns (r: Txn1Result)
    modifies db
    ensures !r.Txn1Acquired? ==> db.tables == old(db.tables)
    ensures r.Txn1Acquired? ==> forall b | b in old(db.tables).budgets ::
              && b in db.tables.budgets
              && db.tables.budgets[b].remaining <= old(db.tables).budgets[b].remaining
              && (db.tables.budgets[b].remaining < old(db.tables).budgets[b].remaining ==>
                    && b.team == slot.team && b.start <= day < old(db.tables).budgets[b].end
                    && db.tables.budgets[b].remaining == old(db.tables).budgets[b].remaining - cost)
    ensures r.Txn1Acquired? ==>
              && slot in db.tables.keys
              && var row := db.tables.keys[slot];
              && var b := BudgetId(slot.team, row.period);
              && b in old(db.tables).budgets && b.start <= day < old(db.tables).budgets[b].end
              && row.hash == hash && row.status.Pending? && row.reserved == cost && row.expiresAt == now + 300
              && db.tables.keys == old(db.tables).keys[slot := row] && db.tables.usage == old(db.tables).usage
              && db.tables.budgets.Keys == old(db.tables).budgets.Keys && db.tables.budgets[b].remaining == old(db.tables).budgets[b].remaining - cost
    ensures r.Txn1Answered? ==>
              && slot in old(db.tables).keys
              && var row := old(db.tables).keys[slot];
              && r.answer == if row.hash != hash then Conflict else
                               match row.status
                               case Completed(snapshot) => Replay(snapshot)
                               case Failed(errorCode) => PreviouslyFailed(errorCode)
                               case Pending => if now < row.expiresAt then InProgress else ExpiredPending
    ensures r.Txn1NoActivePeriod? <==>
              forall b | b in old(db.tables).budgets && b.team == slot.team :: !(b.start <= day < old(db.tables).budgets[b].end)
    ensures r == Txn1Raised(SeveralRows) <==> exists b, c ::
              && b in old(db.tables).budgets && c in old(db.tables).budgets && b != c && b.team == c.team == slot.team
              && b.start <= day < old(db.tables).budgets[b].end && c.start <= day < old(db.tables).budgets[c].end
    ensures r.Txn1InsufficientBudget? <==>
              && r != Txn1Raised(SeveralRows) && slot !in old(db.tables).keys && 0 <= cost <= 999_999_999_999
              && exists b :: && b in old(db.tables).budgets && b.team == slot.team && b.start <= day < old(db.tables).budgets[b].end
                             && old(db.tables).budgets[b].remaining < cost
    ensures r.Txn1Acquired? ==>
              exists b :: && ActivePeriods(old(db.tables), slot.team, day) == {b}
                          && 0 <= cost
                          && var row := KeyRow(b.start, hash, Pending, cost, now + TTL);
                          && CanReserve(old(db.tables), slot, row)
                          && db.tables == Reserve(old(db.tables), slot, row)
    ensures var t := old(db.tables);
            var periods := ActivePeriods(t, slot.team, day);
            && (r.Txn1NoActivePeriod? <==> periods == {})
            && (r == Txn1Raised(SeveralRows) <==> |periods| > 1)
            && (|periods| == 1 && 0 <= cost <= MAX_AMOUNT && slot in t.keys ==>
                  r == Txn1Answered(Precheck(t.keys[slot], hash, now)))
            && (|periods| == 1 && 0 <= cost <= MAX_AMOUNT && slot !in t.keys ==>
                  r == if forall b | b in periods :: cost <= t.budgets[b].remaining
                       then Txn1Acquired else Txn1InsufficientBudget)
            && (|periods| == 1 && !(0 <= cost <= MAX_AMOUNT) ==> r == Txn1Raised(InvalidInput))
  {
    r := AcquireAndReserve(db, slot, hash, cost, day, now);
    CoveringPeriods(old(db.tables), slot.team, day);
  }

  predicate ValidErrorCode(errorCode: string) {
    NotBlank(errorCode) && |errorCode| <= 100
  }

  predicate ValidIdentifier(s: string, maxLength: nat) {
    NotBlank(s) && |s| <= maxLength
  }

  /** The checks both settlements make on what goes into the usage record. */
  predicate ValidDetails(d: Details) {
    && ValidIdentifier(d.primaryProvider, 64) && ValidIdentifier(d.primaryModel, 128)
    && (d.finalProvider.Some? <==> d.finalModel.Some?)
    && (d.finalProvider.Some? ==> ValidIdentifier(d.finalProvider.value, 64))
    && (d.finalModel.Some? ==> ValidIdentifier(d.finalModel.value, 128))
    && d.promptTokens >= 0 && d.completionTokens >= 0 && d.latencyMs >= 0
  }

  predicate ValidCost(cost: int) {
    0 <= cost <= MAX_AMOUNT
  }

  /** What each settlement validates; a success must also name who answered. */
  predicate ValidSettlement(status: Status, cost: int, d: Details) {
    match status
    case Pending => false
    case Completed(_) => ValidCost(cost) && ValidDetails(d) && d.finalProvider.Some?
    case Failed(errorCode) => ValidCost(cost) && ValidDetails(d) && ValidErrorCode(errorCode)
  }

  /** Transaction 2 for a success: validated, settled and committed, or nothing. */
  method SettleSuccess(db: Database, slot: Slot, actualCost: int, snapshot: string, promptVersion: Option<nat>, details: Details)
    returns (r: Result<SettlementResult, DbError>)
    modifies db
    ensures r.Err? || !r.value.claimed ==> db.tables == old(db.tables)
    ensures r.Ok? ==> (r.value.claimed <==> Claimable(old(db.tables), slot))
    ensures Sound(old(db.tables)) ==> Sound(db.tables)
    ensures r == Err(InvalidInput) <==> !ValidSettlement(Completed(snapshot), actualCost, details)
    ensures r != Err(InvalidInput) <==>
              && 0 <= actualCost <= 999_999_999_999 && details.finalProvider.Some?
              && details.promptTokens >= 0 && details.completionTokens >= 0 && details.latencyMs >= 0
              && NotBlank(details.primaryProvider) && |details.primaryProvider| <= 64
              && NotBlank(details.primaryModel) && |details.primaryModel| <= 128
              && (details.finalProvider.Some? <==> details.finalModel.Some?)
              && (details.finalProvider.Some? ==> NotBlank(details.finalProvider.value) && |details.finalProvider.value| <= 64
                                                  && NotBlank(details.finalModel.value) && |details.finalModel.value| <= 128)
    ensures Sound(old(db.tables)) && ValidCost(actualCost) ==>
              (r == Err(ForeignKeyViolation) <==>
                && ValidSettlement(Completed(snapshot), actualCost, details) && Claimable(old(db.tables), slot)
                && !VersionStands(old(db.tables), Usage(true, actualCost, promptVersion, details)))
    ensures Sound(old(db.tables)) && r.Err? ==> r.error == InvalidInput || r.error == ForeignKeyViolation
    ensures Sound(old(db.tables)) && r.Ok? && r.value.claimed ==>
              && ValidCost(actualCost)
              && var usage := Usage(true, actualCost, promptVersion, details);
              && CanSettle(old(db.tables), slot, Completed(snapshot), usage)
              && db.tables == Settle(old(db.tables), slot, Completed(snapshot), usage)
              && r.value.refunded == Some(RefundDue(old(db.tables).keys[slot].reserved, actualCost))
              && (r.value.costCapped <==> actualCost > old(db.tables).keys[slot].reserved)
    ensures Sound(old(db.tables)) && r.Ok? && r.value.claimed ==>
              var t, t' := old(db.tables), db.tables;
              && slot in t.keys && BudgetId(slot.team, t.keys[slot].period) in t.budgets
              && var row, b := t.keys[slot], BudgetId(slot.team, t.keys[slot].period);
              && var charged := if actualCost <= row.reserved then actualCost else row.reserved;
              && t'.budgets == t.budgets[b := t.budgets[b].(remaining := t.budgets[b].remaining + row.reserved - charged)]
              && t'.keys == t.keys[slot := row.(status := Completed(snapshot))]
              && actualCost >= 0 && t'.usage == t.usage[slot := Usage(true, actualCost, promptVersion, details)]
  {
    if !ValidSettlement(Completed(snapshot), actualCost, details) {
      return Err(InvalidInput);
    }
    r := CommitSettlement(db, slot, Completed(snapshot), Usage(true, actualCost, promptVersion, details));
    ghost var sound := Sound(old(db.tables));
    if sound && r.Ok? && r.value.claimed {
      SettleCharges(old(db.tables), slot, Completed(snapshot), Usage(true, actualCost, promptVersion, details));
    }
  }

  /** Transaction 2 for a failure: the same, with an error code instead of a snapshot. */
  method SettleFailure(db: Database, slot: Slot, actualCost: int, errorCode: string, promptVersion: Option<nat>, details: Details)
    returns (r: Result<SettlementResult, DbError>)
    modifies db
    ensures r.Err? || !r.value.claimed ==> db.tables == old(db.tables)
    ensures r.Ok? ==> (r.value.claimed <==> Claimable(old(db.tables), slot))
    ensures Sound(old(db.tables)) ==> Sound(db.tables)
    ensures r == Err(InvalidInput) <==> !ValidSettlement(Status.Failed(errorCode), actualCost, details)
    ensures r != Err(InvalidInput) <==>
              && 0 <= actualCost <= 999_999_999_999 && 0 < |errorCode| <= 100 && (exists i :: 0 <= i < |errorCode| && errorCode[i] != ' ')
              && details.promptTokens >= 0 && details.completionTokens >= 0 && details.latencyMs >= 0
              && NotBlank(details.primaryProvider) && |details.primaryProvider| <= 64
              && NotBlank(details.primaryModel) && |details.primaryModel| <= 128
              && (details.finalProvider.Some? <==> details.finalModel.Some?)
              && (details.finalProvider.Some? ==> NotBlank(details.finalProvider.value) && |details.finalProvider.value| <= 64
                                                  && NotBlank(details.finalModel.value) && |details.finalModel.value| <= 128)
    ensures Sound(old(db.tables)) && ValidCost(actualCost) ==>
              (r == Err(ForeignKeyViolation) <==>
                && ValidSettlement(Status.Failed(errorCode), actualCost, details) && Claimable(old(db.tables), slot)
                && !VersionStands(old(db.tables), Usage(false, actualCost, promptVersion, details)))
    ensures Sound(old(db.tables)) && r.Err? ==> r.error == InvalidInput || r.error == ForeignKeyViolation
    ensures Sound(old(db.tables)) && r.Ok? && r.value.claimed ==>
              && ValidCost(actualCost)
              && var usage := Usage(false, actualCost, promptVersion, details);
              && CanSettle(old(db.tables), slot, Status.Failed(errorCode), usage)
              && db.tables == Settle(old(db.tables), slot, Status.Failed(errorCode), usage)
              && r.value.refunded == Some(RefundDue(old(db.tables).keys[slot].reserved, actualCost))
              && (r.value.costCapped <==> actualCost > old(db.tables).keys[slot].reserved)
    ensures Sound(old(db.tables)) && r.Ok? && r.value.claimed ==>
              var t, t' := old(db.tables), db.tables;
              && slot in t.keys && BudgetId(slot.team, t.keys[slot].period) in t.budgets
              && var row, b := t.keys[slot], BudgetId(slot.team, t.keys[slot].period);
              && var charged := if actualCost <= row.reserved then actualCost else row.reserved;
              && t'.budgets == t.budgets[b := t.budgets[b].(remaining := t.budgets[b].remaining + row.reserved - charged)]
              && t'.keys == t.keys[slot := row.(status := Status.Failed(errorCode))]
              && actualCost >= 0 && t'.usage == t.usage[slot := Usage(false, actualCost, promptVersion, details)]
  {
    if !ValidSettlement(Status.Failed(errorCode), actualCost, details) {
      return Err(InvalidInput);
    }
    r := CommitSettlement(db, slot, Status.Failed(errorCode), Usage(false, actualCost, promptVersion, details));
    ghost var sound := Sound(old(db.tables));
    if sound && r.Ok? && r.value.claimed {
      SettleCharges(old(db.tables), slot, Status.Failed(errorCode), Usage(false, actualCost, promptVersion, details));
    }
  }

  /** One session around the settlement: committed, or rolled back on any error. */
  method CommitSettlement(db: Database, slot: Slot, status: Status, usage: Usage) returns (r: Result<SettlementResult, DbError>)
    requires !status.Pending? && (usage.succeeded <==> status.Completed?)
    modifies db
    ensures r.Err? || !r.value.claimed ==> db.tables == old(db.tables)
    ensures r.Ok? ==> (r.value.claimed <==> Claimable(old(db.tables), slot))
    ensures Sound(old(db.tables)) ==> Sound(db.tables)
    ensures r.Err? ==> r.error != InvalidInput
    ensures Sound(old(db.tables)) ==>
              (r.Err? <==> Claimable(old(db.tables), slot) && !VersionStands(old(db.tables), usage))
    ensures Sound(old(db.tables)) && r.Err? ==> r.error == ForeignKeyViolation
    ensures Sound(old(db.tables)) && r.Ok? && r.value.claimed ==>
              && CanSettle(old(db.tables), slot, status, usage)
              && db.tables == Settle(old(db.tables), slot, status, usage)
              && r.value.refunded == Some(RefundDue(old(db.tables).keys[slot].reserved, usage.actualCost))
              && (r.value.costCapped <==> usage.actualCost > old(db.tables).keys[slot].reserved)
  {
    var txn := new Session(db);
    r := txn.SettleClaimed(slot, status, usage);
    if r.Err? {
      txn.Rollback();
      return;
    }
    ghost var sound := Sound(old(db.tables));
    if sound && r.value.claimed {
      SettleKeepsSound(old(db.tables), slot, status, usage);
    }
    txn.Commit();
  }
}
