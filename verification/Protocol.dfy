/**
The gateway as a step system: any number of requests, interleaved between the committed
statements of their two transactions, each able to abort or crash at any point.

Database assumptions: a guarded UPDATE acts on the latest committed row and keeps that row
locked until its transaction ends; an insert that meets another transaction's uncommitted
insert of the same key waits for it; an inserted reference keeps the row it names from being
deleted until its transaction ends; a transaction that aborts leaves no trace.
*/
module Protocol {
  import opened Wrappers
  import opened Ledger
  import opened Idempotency

  datatype Request = Request(slot: Slot, hash: string, cost: nat)

  /** What execution decided to settle with. */
  datatype Verdict = Verdict(status: Status, usage: Usage)

  predicate Acceptable(v: Verdict) {
    && !v.status.Pending?
    && (v.usage.succeeded <==> v.status.Completed?)
    && v.usage.actualCost <= MAX_AMOUNT
  }

  datatype Outcome =
    | Answered(answer: Answer)
    | Rejected
    | NoActivePeriod
    | AmbiguousPeriod
    | InsufficientBudget
    | Aborted
    | Settled
    | NotClaimed
    | IntegrityFailure
    | DuplicateUsage
    | VersionMissing
    | Crashed

  /**
  Program counter with the transaction's own uncommitted values: the inserted or re-read row,
  and the remaining_amount this transaction has written but not committed.
  */
  datatype Pc =
    | Start
    | Checked
    | Inserted(row: KeyRow)
    | Deducted(row: KeyRow, left: nat)
    | Owned
    | Resolved(verdict: Verdict)
    | Claimed(verdict: Verdict, row: KeyRow)
    | Refunded(verdict: Verdict, row: KeyRow, credit: Option<nat>)
    | Recorded(verdict: Verdict, row: KeyRow, credit: Option<nat>)
    | Done(outcome: Outcome)

  /** owns: committed ACQUIRED. executed: entered provider execution. */
  datatype Proc = Proc(req: Request, pc: Pc, owns: bool, executed: bool)

  datatype Sys = Sys(t: Tables, procs: map<nat, Proc>, now: int)

  datatype Action =
    | Tick(to: int)
    | NewBudget(b: BudgetId, end: int, amount: nat)
    | NewVersion(v: nat)
    | DropVersion(v: nat)
    | Arrive(pid: nat, req: Request)
    | LookUp(pid: nat)
    | Reject(pid: nat)
    | Insert(pid: nat, day: int)
    | Deduct(pid: nat)
    | Commit1(pid: nat)
    | Execute(pid: nat, verdict: Verdict)
    | Claim(pid: nat)
    | Refund(pid: nat)
    | Record(pid: nat)
    | Commit2(pid: nat)
    | Abort(pid: nat)
    | Crash(pid: nat)

  // ---------------------------------------------------------------- locks

  predicate Inserting(p: Proc) {
    p.pc.Inserted? || p.pc.Deducted?
  }

  predicate Settling(p: Proc) {
    p.pc.Claimed? || p.pc.Refunded? || p.pc.Recorded?
  }

  function Target(p: Proc): BudgetId
    requires Inserting(p) || Settling(p)
  {
    BudgetOf(p.req.slot, p.pc.row)
  }

  /** p has an uncommitted update of budget row b. */
  predicate HoldsBudget(p: Proc, b: BudgetId) {
    || (p.pc.Deducted? && Target(p) == b)
    || ((p.pc.Refunded? || p.pc.Recorded?) && p.pc.credit.Some? && Target(p) == b)
  }

  ghost predicate BudgetFree(s: Sys, pid: nat, b: BudgetId) {
    forall q | q in s.procs && q != pid :: !HoldsBudget(s.procs[q], b)
  }

  ghost predicate InsertFree(s: Sys, pid: nat, slot: Slot) {
    forall q | q in s.procs && q != pid :: !(Inserting(s.procs[q]) && s.procs[q].req.slot == slot)
  }

  ghost predicate RowFree(s: Sys, pid: nat, slot: Slot) {
    forall q | q in s.procs && q != pid :: !(Settling(s.procs[q]) && s.procs[q].req.slot == slot)
  }

  /** No usage record, committed or about to be, names version v. */
  ghost predicate VersionFree(s: Sys, v: nat) {
    && (forall u | u in s.t.usage :: s.t.usage[u].promptVersion != Some(v))
    && (forall q | q in s.procs :: !(s.procs[q].pc.Recorded? && s.procs[q].pc.verdict.usage.promptVersion == Some(v)))
  }

  // ---------------------------------------------------------------- steps

  ghost predicate Enabled(s: Sys, a: Action) {
    match a
    case Tick(to) => s.now <= to
    case NewBudget(b, end, amount) => b !in s.t.budgets && amount <= MAX_AMOUNT
    case NewVersion(v) => true
    case DropVersion(v) => VersionFree(s, v)
    case Arrive(pid, req) => pid !in s.procs && req.cost <= MAX_AMOUNT
    case LookUp(pid) => pid in s.procs && s.procs[pid].pc.Start?
    case Reject(pid) => pid in s.procs && s.procs[pid].pc.Checked?
    case Insert(pid, day) =>
      && pid in s.procs && s.procs[pid].pc.Checked?
      && (s.procs[pid].req.slot in s.t.keys || InsertFree(s, pid, s.procs[pid].req.slot))
    case Deduct(pid) =>
      && pid in s.procs && s.procs[pid].pc.Inserted? && s.procs[pid].req.cost > 0
      && BudgetFree(s, pid, Target(s.procs[pid]))
    case Commit1(pid) =>
      && pid in s.procs
      && (s.procs[pid].pc.Deducted? || (s.procs[pid].pc.Inserted? && s.procs[pid].req.cost == 0))
    case Execute(pid, verdict) => pid in s.procs && s.procs[pid].pc.Owned? && Acceptable(verdict)
    case Claim(pid) =>
      && pid in s.procs && s.procs[pid].pc.Resolved?
      && RowFree(s, pid, s.procs[pid].req.slot)
    case Refund(pid) =>
      && pid in s.procs && s.procs[pid].pc.Claimed?
      && BudgetFree(s, pid, Target(s.procs[pid]))
    case Record(pid) => pid in s.procs && s.procs[pid].pc.Refunded?
    case Commit2(pid) => pid in s.procs && s.procs[pid].pc.Recorded?
    case Abort(pid) => pid in s.procs && (Inserting(s.procs[pid]) || Settling(s.procs[pid]))
    case Crash(pid) => pid in s.procs && !s.procs[pid].pc.Done?
  }

  function At(s: Sys, pid: nat, pc: Pc): Sys
    requires pid in s.procs
  {
    s.(procs := s.procs[pid := s.procs[pid].(pc := pc)])
  }

  /** The period lookup and the insert that follow it in Transaction 1. */
  function InsertPc(s: Sys, p: Proc, day: int): Pc {
    var periods := ActivePeriods(s.t, p.req.slot.team, day);
    if periods == {} then Done(NoActivePeriod)
    else if |periods| > 1 then Done(AmbiguousPeriod)
    else if p.req.slot in s.t.keys then
      var race := RaceAnswer(AcquireExisting(s.t.keys[p.req.slot], p.req.hash, s.now));
      if race.Some? then Done(Answered(race.value)) else Done(Aborted)
    else
      Inserted(KeyRow(TheOne(periods).start, p.req.hash, Pending, p.req.cost, s.now + TTL))
  }

  /** reserve_budget: deduct only if enough remains. */
  function DeductPc(s: Sys, p: Proc): Pc
    requires p.pc.Inserted?
  {
    var b := Target(p);
    if b in s.t.budgets && p.req.cost <= s.t.budgets[b].remaining then
      Deducted(p.pc.row, s.t.budgets[b].remaining - p.req.cost)
    else Done(InsufficientBudget)
  }

  /** claim_settlement and the authoritative re-read that follows a winning claim. */
  function ClaimPc(s: Sys, p: Proc): Pc
    requires p.pc.Resolved?
  {
    if p.req.slot in s.t.keys && s.t.keys[p.req.slot].status.Pending? then
      Claimed(p.pc.verdict, s.t.keys[p.req.slot])
    else Done(NotClaimed)
  }

  /** _apply_refund_if_needed: no statement at all for a zero refund, else a guarded credit. */
  function RefundPc(s: Sys, p: Proc): Pc
    requires p.pc.Claimed?
  {
    var b := Target(p);
    var refund := RefundDue(p.pc.row.reserved, p.pc.verdict.usage.actualCost);
    if refund == 0 then Refunded(p.pc.verdict, p.pc.row, None)
    else if b in s.t.budgets && s.t.budgets[b].remaining + refund <= s.t.budgets[b].allocation then
      Refunded(p.pc.verdict, p.pc.row, Some(s.t.budgets[b].remaining + refund))
    else Done(IntegrityFailure)
  }

  /** The usage insert, unique per row and with a foreign key to the prompt version. */
  function RecordPc(s: Sys, p: Proc): Pc
    requires p.pc.Refunded?
  {
    if p.req.slot in s.t.usage then Done(DuplicateUsage)
    else if !VersionStands(s.t, p.pc.verdict.usage) then Done(VersionMissing)
    else Recorded(p.pc.verdict, p.pc.row, p.pc.credit)
  }

  function WriteRemaining(t: Tables, b: BudgetId, left: nat): Tables {
    if b in t.budgets then t.(budgets := t.budgets[b := t.budgets[b].(remaining := left)]) else t
  }

  /** Committing publishes exactly the values this transaction wrote. */
  function Commit1Tables(t: Tables, p: Proc): Tables
    requires Inserting(p)
  {
    var t' := t.(keys := t.keys[p.req.slot := p.pc.row]);
    if p.pc.Deducted? then WriteRemaining(t', Target(p), p.pc.left) else t'
  }

  function Commit2Tables(t: Tables, p: Proc): Tables
    requires p.pc.Recorded?
  {
    var t' := t.(keys := t.keys[p.req.slot := p.pc.row.(status := p.pc.verdict.status)],
                 usage := t.usage[p.req.slot := p.pc.verdict.usage]);
    if p.pc.credit.Some? then WriteRemaining(t', Target(p), p.pc.credit.value) else t'
  }

  function Apply(s: Sys, a: Action): Sys
    requires Enabled(s, a)
  {
    match a
    case Tick(to) => s.(now := to)
    case NewBudget(b, end, amount) => s.(t := OpenBudget(s.t, b, end, amount))
    case NewVersion(v) => s.(t := s.t.(versions := s.t.versions + {v}))
    case DropVersion(v) => s.(t := s.t.(versions := s.t.versions - {v}))
    case Arrive(pid, req) => s.(procs := s.procs[pid := Proc(req, Start, false, false)])
    case LookUp(pid) =>
      var p := s.procs[pid];
      if p.req.slot in s.t.keys
      then At(s, pid, Done(Answered(Precheck(s.t.keys[p.req.slot], p.req.hash, s.now))))
      else At(s, pid, Checked)
    case Reject(pid) => At(s, pid, Done(Rejected))
    case Insert(pid, day) => At(s, pid, InsertPc(s, s.procs[pid], day))
    case Deduct(pid) => At(s, pid, DeductPc(s, s.procs[pid]))
    case Commit1(pid) =>
      var p := s.procs[pid];
      s.(t := Commit1Tables(s.t, p), procs := s.procs[pid := p.(pc := Owned, owns := true)])
    case Execute(pid, verdict) =>
      s.(procs := s.procs[pid := s.procs[pid].(pc := Resolved(verdict), executed := true)])
    case Claim(pid) => At(s, pid, ClaimPc(s, s.procs[pid]))
    case Refund(pid) => At(s, pid, RefundPc(s, s.procs[pid]))
    case Record(pid) => At(s, pid, RecordPc(s, s.procs[pid]))
    case Commit2(pid) =>
      At(s, pid, Done(Settled)).(t := Commit2Tables(s.t, s.procs[pid]))
    case Abort(pid) => At(s, pid, Done(Aborted))
    case Crash(pid) => At(s, pid, Done(Crashed))
  }

  // ---------------------------------------------------------------- invariant

  /** The row a request inserts. */
  predicate RowOf(req: Request, row: KeyRow) {
    row.status.Pending? && row.reserved == req.cost && row.hash == req.hash
  }

  /** What a transaction's private values say about the committed tables. */
  ghost predicate ProcOk(t: Tables, p: Proc) {
    && p.req.cost <= MAX_AMOUNT
    && (p.executed ==> p.owns)
    && (p.owns ==> p.req.slot in t.keys && t.keys[p.req.slot].hash == p.req.hash
                   && t.keys[p.req.slot].reserved == p.req.cost)
    && match p.pc
       case Start => !p.owns
       case Checked => !p.owns
       case Inserted(row) => !p.owns && RowOf(p.req, row) && p.req.slot !in t.keys && Target(p) in t.budgets
       case Deducted(row, left) =>
         && !p.owns && RowOf(p.req, row) && p.req.slot !in t.keys && Target(p) in t.budgets
         && t.budgets[Target(p)].remaining == left + p.req.cost
       case Owned => p.owns && !p.executed && t.keys[p.req.slot].status.Pending?
       case Resolved(v) => p.owns && Acceptable(v) && t.keys[p.req.slot].status.Pending?
       case Claimed(v, row) => p.owns && Acceptable(v) && row.status.Pending? && t.keys[p.req.slot] == row
       case Refunded(v, row, credit) =>
         p.owns && Acceptable(v) && row.status.Pending? && t.keys[p.req.slot] == row && CreditOk(t, p)
       case Recorded(v, row, credit) =>
         && p.owns && Acceptable(v) && row.status.Pending? && t.keys[p.req.slot] == row && CreditOk(t, p)
         && VersionStands(t, v.usage)
       case Done(o) => !o.NotClaimed? && !o.IntegrityFailure? && !o.DuplicateUsage?
  }

  ghost predicate CreditOk(t: Tables, p: Proc)
    requires p.pc.Refunded? || p.pc.Recorded?
  {
    var refund := RefundDue(p.pc.row.reserved, p.pc.verdict.usage.actualCost);
    match p.pc.credit
    case None => refund == 0
    case Some(left) => Target(p) in t.budgets && left == t.budgets[Target(p)].remaining + refund
  }

  /** Two requests never hold the same lock, nor own the same slot. */
  ghost predicate PairOk(p: Proc, q: Proc) {
    && !(Inserting(p) && Inserting(q) && p.req.slot == q.req.slot)
    && !(p.owns && q.owns && p.req.slot == q.req.slot)
    && forall b :: !(HoldsBudget(p, b) && HoldsBudget(q, b))
  }

  ghost predicate Inv(s: Sys) {
    && Sound(s.t)
    && (forall p | p in s.procs :: ProcOk(s.t, s.procs[p]))
    && (forall p, q | p in s.procs && q in s.procs && p != q :: PairOk(s.procs[p], s.procs[q]))
  }

  // ---------------------------------------------------------------- each step keeps it

  /** A step of pid has to look after pid, and after what the others rely on in the tables. */
  lemma OneStep(s: Sys, pid: nat, p': Proc, t': Tables)
    requires Inv(s) && Sound(t')
    requires ProcOk(t', p')
    requires forall q | q in s.procs && q != pid :: ProcOk(t', s.procs[q]) && PairOk(p', s.procs[q])
    ensures Inv(Sys(t', s.procs[pid := p'], s.now))
  {
    var s' := Sys(t', s.procs[pid := p'], s.now);
    forall q, r | q in s'.procs && r in s'.procs && q != r
      ensures PairOk(s'.procs[q], s'.procs[r])
    {
      if r == pid {
        assert PairOk(p', s.procs[q]);
      }
    }
  }

  /** A step that leaves the tables alone. */
  lemma LocalStep(s: Sys, pid: nat, p': Proc)
    requires Inv(s)
    requires ProcOk(s.t, p')
    requires forall q | q in s.procs && q != pid :: PairOk(p', s.procs[q])
    ensures Inv(s.(procs := s.procs[pid := p']))
  {
    OneStep(s, pid, p', s.t);
  }

  /** Dropping locks without gaining ownership cannot create a clash. */
  lemma ReleaseStep(s: Sys, pid: nat, o: Outcome)
    requires Inv(s) && pid in s.procs
    requires !o.NotClaimed? && !o.IntegrityFailure? && !o.DuplicateUsage?
    ensures Inv(At(s, pid, Done(o)))
  {
    var s' := At(s, pid, Done(o));
    forall q | q in s.procs && q != pid
      ensures PairOk(s'.procs[pid], s.procs[q])
    {
      assert PairOk(s.procs[pid], s.procs[q]);
    }
    LocalStep(s, pid, s'.procs[pid]);
  }

  lemma InsertKeepsInv(s: Sys, pid: nat, day: int)
    requires Inv(s) && Enabled(s, Insert(pid, day))
    ensures Inv(Apply(s, Insert(pid, day)))
  {
    var p := s.procs[pid];
    var pc := InsertPc(s, p, day);
    if pc.Done? {
      ReleaseStep(s, pid, pc.outcome);
    } else {
      var s' := At(s, pid, pc);
      forall q | q in s.procs && q != pid
        ensures PairOk(s'.procs[pid], s.procs[q])
      {
        assert PairOk(p, s.procs[q]);
      }
      LocalStep(s, pid, s'.procs[pid]);
    }
  }

  lemma DeductKeepsInv(s: Sys, pid: nat)
    requires Inv(s) && Enabled(s, Deduct(pid))
    ensures Inv(Apply(s, Deduct(pid)))
  {
    var p := s.procs[pid];
    var pc := DeductPc(s, p);
    if pc.Done? {
      ReleaseStep(s, pid, pc.outcome);
    } else {
      var s' := At(s, pid, pc);
      forall q | q in s.procs && q != pid
        ensures PairOk(s'.procs[pid], s.procs[q])
      {
        assert PairOk(p, s.procs[q]);
      }
      LocalStep(s, pid, s'.procs[pid]);
    }
  }

  /** The refund guard holds whenever it is reached. */
  lemma RefundNeverRefused(s: Sys, pid: nat)
    requires Inv(s) && pid in s.procs && s.procs[pid].pc.Claimed?
    ensures RefundPc(s, s.procs[pid]).Refunded?
  {
    var p := s.procs[pid];
    RefundFits(s.t, p.req.slot, p.pc.verdict.usage.actualCost);
  }

  lemma RefundKeepsInv(s: Sys, pid: nat)
    requires Inv(s) && Enabled(s, Refund(pid))
    ensures Inv(Apply(s, Refund(pid)))
  {
    var p := s.procs[pid];
    RefundNeverRefused(s, pid);
    var s' := At(s, pid, RefundPc(s, p));
    forall q | q in s.procs && q != pid
      ensures PairOk(s'.procs[pid], s.procs[q])
    {
      assert PairOk(p, s.procs[q]);
    }
    LocalStep(s, pid, s'.procs[pid]);
  }

  /**
  An owner that reaches settlement always wins its claim, and its usage record is new; the insert
  fails exactly if the prompt version it names is gone.
  */
  lemma ClaimNeverLost(s: Sys, pid: nat)
    requires Inv(s) && pid in s.procs
    ensures s.procs[pid].pc.Resolved? ==> ClaimPc(s, s.procs[pid]).Claimed?
    ensures s.procs[pid].pc.Refunded? ==>
              && (RecordPc(s, s.procs[pid]).Recorded? <==> VersionStands(s.t, s.procs[pid].pc.verdict.usage))
              && (!RecordPc(s, s.procs[pid]).Recorded? ==> RecordPc(s, s.procs[pid]) == Done(VersionMissing))
  {
    assert ProcOk(s.t, s.procs[pid]);
  }

  lemma SettlementStepKeepsInv(s: Sys, pid: nat, a: Action)
    requires Inv(s) && Enabled(s, a)
    requires a == Claim(pid) || a == Record(pid)
    ensures Inv(Apply(s, a))
  {
    ClaimNeverLost(s, pid);
    var p := s.procs[pid];
    var s' := Apply(s, a);
    if s'.procs[pid].pc.Done? {
      ReleaseStep(s, pid, VersionMissing);
    } else {
      forall q | q in s.procs && q != pid
        ensures PairOk(s'.procs[pid], s.procs[q])
      {
        assert PairOk(p, s.procs[q]);
        forall b
          ensures !(HoldsBudget(s'.procs[pid], b) && HoldsBudget(s.procs[q], b))
        {
          assert HoldsBudget(s'.procs[pid], b) ==> HoldsBudget(p, b);
        }
      }
      LocalStep(s, pid, s'.procs[pid]);
    }
  }

  // ---------------------------------------------------------------- commits refine the atomic ledger

  lemma Commit1Refines(s: Sys, pid: nat)
    requires Inv(s) && Enabled(s, Commit1(pid))
    ensures CanReserve(s.t, s.procs[pid].req.slot, s.procs[pid].pc.row)
    ensures Commit1Tables(s.t, s.procs[pid]) == Reserve(s.t, s.procs[pid].req.slot, s.procs[pid].pc.row)
  {
    var p := s.procs[pid];
    assert ProcOk(s.t, p);
    if p.pc.Inserted? {
      assert s.t.budgets[Target(p) := s.t.budgets[Target(p)]] == s.t.budgets;
    }
  }

  lemma Commit2Refines(s: Sys, pid: nat)
    requires Inv(s) && Enabled(s, Commit2(pid))
    ensures var p := s.procs[pid];
            CanSettle(s.t, p.req.slot, p.pc.verdict.status, p.pc.verdict.usage)
    ensures var p := s.procs[pid];
            Commit2Tables(s.t, p) == Settle(s.t, p.req.slot, p.pc.verdict.status, p.pc.verdict.usage)
  {
    var p := s.procs[pid];
    assert ProcOk(s.t, p);
    if p.pc.credit.None? {
      assert s.t.budgets[Target(p) := s.t.budgets[Target(p)]] == s.t.budgets;
    }
  }

  lemma Commit1KeepsInv(s: Sys, pid: nat)
    requires Inv(s) && Enabled(s, Commit1(pid))
    ensures Inv(Apply(s, Commit1(pid)))
  {
    var p := s.procs[pid];
    var s' := Apply(s, Commit1(pid));
    Commit1Refines(s, pid);
    ReserveKeepsSound(s.t, p.req.slot, p.pc.row);
    forall q | q in s.procs && q != pid
      ensures ProcOk(s'.t, s.procs[q]) && PairOk(s'.procs[pid], s.procs[q])
    {
      Commit1LeavesOthers(s, pid, q);
    }
    assert ProcOk(s.t, p);
    OneStep(s, pid, s'.procs[pid], s'.t);
  }

  lemma Commit1LeavesOthers(s: Sys, pid: nat, q: nat)
    requires Inv(s) && Enabled(s, Commit1(pid)) && q in s.procs && q != pid
    ensures ProcOk(Commit1Tables(s.t, s.procs[pid]), s.procs[q])
    ensures PairOk(s.procs[pid].(pc := Owned, owns := true), s.procs[q])
  {
    var p := s.procs[pid];
    assert ProcOk(s.t, p) && ProcOk(s.t, s.procs[q]) && PairOk(p, s.procs[q]);
    if p.pc.Deducted? {
      assert HoldsBudget(p, Target(p));
    }
  }

  lemma Commit2LeavesOthers(s: Sys, pid: nat, q: nat)
    requires Inv(s) && Enabled(s, Commit2(pid)) && q in s.procs && q != pid
    ensures ProcOk(Commit2Tables(s.t, s.procs[pid]), s.procs[q])
    ensures PairOk(s.procs[pid].(pc := Done(Settled)), s.procs[q])
  {
    var p := s.procs[pid];
    assert ProcOk(s.t, p) && ProcOk(s.t, s.procs[q]) && PairOk(p, s.procs[q]);
    if p.pc.credit.Some? {
      assert HoldsBudget(p, Target(p));
    }
  }

  lemma Commit2KeepsInv(s: Sys, pid: nat)
    requires Inv(s) && Enabled(s, Commit2(pid))
    ensures Inv(Apply(s, Commit2(pid)))
  {
    var p := s.procs[pid];
    var s' := Apply(s, Commit2(pid));
    Commit2Refines(s, pid);
    SettleKeepsSound(s.t, p.req.slot, p.pc.verdict.status, p.pc.verdict.usage);
    forall q | q in s.procs && q != pid
      ensures ProcOk(s'.t, s.procs[q]) && PairOk(s'.procs[pid], s.procs[q])
    {
      Commit2LeavesOthers(s, pid, q);
    }
    assert ProcOk(s.t, p);
    OneStep(s, pid, s'.procs[pid], s'.t);
  }

  lemma NewBudgetKeepsInv(s: Sys, b: BudgetId, end: int, amount: nat)
    requires Inv(s) && Enabled(s, NewBudget(b, end, amount))
    ensures Inv(Apply(s, NewBudget(b, end, amount)))
  {
    OpenKeepsSound(s.t, b, end, amount);
    var s' := Apply(s, NewBudget(b, end, amount));
    forall q | q in s'.procs
      ensures ProcOk(s'.t, s'.procs[q])
    {
      assert ProcOk(s.t, s.procs[q]);
    }
  }

  lemma VersionsKeepInv(s: Sys, a: Action)
    requires Inv(s) && Enabled(s, a) && (a.NewVersion? || a.DropVersion?)
    ensures VersionStep(s.t, Apply(s, a).t)
    ensures Inv(Apply(s, a))
  {
    var s' := Apply(s, a);
    VersionsKeepSound(s.t, s'.t);
    forall q | q in s'.procs
      ensures ProcOk(s'.t, s'.procs[q])
    {
      assert ProcOk(s.t, s.procs[q]);
    }
  }

  lemma LookUpKeepsInv(s: Sys, pid: nat)
    requires Inv(s) && Enabled(s, LookUp(pid))
    ensures Inv(Apply(s, LookUp(pid)))
  {
    var p := s.procs[pid];
    if p.req.slot in s.t.keys {
      ReleaseStep(s, pid, Answered(Precheck(s.t.keys[p.req.slot], p.req.hash, s.now)));
    } else {
      LocalStep(s, pid, p.(pc := Checked));
    }
  }

  lemma ExecuteKeepsInv(s: Sys, pid: nat, verdict: Verdict)
    requires Inv(s) && Enabled(s, Execute(pid, verdict))
    ensures Inv(Apply(s, Execute(pid, verdict)))
  {
    var p' := s.procs[pid].(pc := Resolved(verdict), executed := true);
    forall q | q in s.procs && q != pid
      ensures PairOk(p', s.procs[q])
    {
      assert PairOk(s.procs[pid], s.procs[q]);
    }
    LocalStep(s, pid, p');
  }

  /** Every step of every request, in any interleaving, keeps the invariant. */
  lemma StepKeepsInv(s: Sys, a: Action)
    requires Inv(s) && Enabled(s, a)
    ensures Inv(Apply(s, a))
  {
    match a
    case Tick(to) =>
    case NewBudget(b, end, amount) => NewBudgetKeepsInv(s, b, end, amount);
    case NewVersion(_) => VersionsKeepInv(s, a);
    case DropVersion(_) => VersionsKeepInv(s, a);
    case Arrive(pid, req) => LocalStep(s, pid, Proc(req, Start, false, false));
    case LookUp(pid) => LookUpKeepsInv(s, pid);
    case Reject(pid) => ReleaseStep(s, pid, Rejected);
    case Insert(pid, day) => InsertKeepsInv(s, pid, day);
    case Deduct(pid) => DeductKeepsInv(s, pid);
    case Commit1(pid) => Commit1KeepsInv(s, pid);
    case Execute(pid, verdict) => ExecuteKeepsInv(s, pid, verdict);
    case Claim(pid) => SettlementStepKeepsInv(s, pid, a);
    case Refund(pid) => RefundKeepsInv(s, pid);
    case Record(pid) => SettlementStepKeepsInv(s, pid, a);
    case Commit2(pid) => Commit2KeepsInv(s, pid);
    case Abort(pid) => ReleaseStep(s, pid, Aborted);
    case Crash(pid) => ReleaseStep(s, pid, Crashed);
  }
}
