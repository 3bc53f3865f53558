/** What holds over whole runs of the gateway: any requests, any interleaving, aborts and crashes anywhere. */
module Runs {
  import opened Wrappers
  import opened Sums
  import opened Ledger
  import opened Idempotency
  import opened Protocol

  /** A run starts from any sound database, with no request in flight. */
  ghost predicate Run(states: seq<Sys>, actions: seq<Action>) {
    && |states| == |actions| + 1
    && Sound(states[0].t) && states[0].procs == map[]
    && forall i | 0 <= i < |actions| :: Enabled(states[i], actions[i]) && states[i + 1] == Apply(states[i], actions[i])
  }

  lemma EmptyDatabaseIsSound()
    ensures Sound(Tables(map[], map[], map[], {}))
  {
  }

  /**
  Conservation: in every committed state of every run, each budget's allocation equals what
  remains plus pending reservations plus the capped costs of settled rows.
  */
  lemma {:induction false} AlwaysSound(states: seq<Sys>, actions: seq<Action>, i: nat)
    requires Run(states, actions) && i < |states|
    ensures Inv(states[i])
    decreases i
  {
    if i > 0 {
      AlwaysSound(states, actions, i - 1);
      StepKeepsInv(states[i - 1], actions[i - 1]);
    }
  }

  /**
  The law in the columns themselves: what a budget was given is what remains of it plus a charge per
  row, which is what a pending row of that budget reserved, and what a settled one cost up to its
  reservation.
  */
  lemma AlwaysBalanced(states: seq<Sys>, actions: seq<Action>, i: nat, b: BudgetId, charge: Slot -> int)
    requires Run(states, actions) && i < |states| && b in states[i].t.budgets
    requires forall s | s in states[i].t.keys ::
               var row := states[i].t.keys[s];
               charge(s) == if s.team != b.team || row.period != b.start then 0
                            else if row.status.Pending? then row.reserved
                            else if s !in states[i].t.usage then 0
                            else if states[i].t.usage[s].actualCost <= row.reserved then states[i].t.usage[s].actualCost
                            else row.reserved
    ensures states[i].t.budgets[b].allocation == states[i].t.budgets[b].remaining + Sum(states[i].t.keys.Keys, charge)
  {
    AlwaysSound(states, actions, i);
    var t := states[i].t;
    SumCongruent(t.keys.Keys, s => Charge(t, b, s), charge);
    assert t.budgets[b].allocation == t.budgets[b].remaining + Held(t, b);
  }

  /** Every row has its budget, and a usage record exactly if settled, which tells how and by which version that exists. */
  lemma AlwaysRecorded(states: seq<Sys>, actions: seq<Action>, i: nat, s: Slot)
    requires Run(states, actions) && i < |states|
    ensures s in states[i].t.keys ==>
              && BudgetId(s.team, states[i].t.keys[s].period) in states[i].t.budgets
              && (s in states[i].t.usage <==> states[i].t.keys[s].status != Pending)
    ensures s in states[i].t.usage ==>
              && s in states[i].t.keys
              && (states[i].t.usage[s].succeeded <==> states[i].t.keys[s].status.Completed?)
              && forall v :: states[i].t.usage[s].promptVersion == Some(v) ==> v in states[i].t.versions
  {
    AlwaysSound(states, actions, i);
    assert Sound(states[i].t);
    if s in states[i].t.usage {
      assert VersionStands(states[i].t, states[i].t.usage[s]);
    }
  }

  // ---------------------------------------------------------------- refinement

  /** One small step is one atomic ledger action or no visible change at all. */
  lemma StepRefines(s: Sys, a: Action)
    requires Inv(s) && Enabled(s, a)
    ensures match a
            case Commit1(pid) =>
              ReserveStep(s.t, Apply(s, a).t)
            case Commit2(pid) =>
              SettleStep(s.t, Apply(s, a).t)
            case NewBudget(_, _, _) => OpenStep(s.t, Apply(s, a).t)
            case NewVersion(_) => VersionStep(s.t, Apply(s, a).t)
            case DropVersion(_) => VersionStep(s.t, Apply(s, a).t)
            case _ => Apply(s, a).t == s.t
    ensures Next(s.t, Apply(s, a).t)
  {
    match a
    case Commit1(pid) => Commit1Refines(s, pid);
    case Commit2(pid) => Commit2Refines(s, pid);
    case NewVersion(_) => VersionsKeepInv(s, a);
    case DropVersion(_) => VersionsKeepInv(s, a);
    case _ =>
  }

  /** The actions that may change the committed tables. */
  predicate Commits(a: Action) {
    a.Commit1? || a.Commit2? || a.NewBudget? || a.NewVersion? || a.DropVersion?
  }

  /** The whole run, seen through its committed tables, is a run of the atomic ledger. */
  lemma RunRefinesLedger(states: seq<Sys>, actions: seq<Action>)
    requires Run(states, actions)
    ensures forall i | 0 <= i < |actions| :: Next(states[i].t, states[i + 1].t)
    ensures forall i | 0 <= i < |actions| && !Commits(actions[i]) :: states[i + 1].t == states[i].t
  {
    forall i | 0 <= i < |actions|
      ensures Next(states[i].t, states[i + 1].t)
      ensures !Commits(actions[i]) ==> states[i + 1].t == states[i].t
    {
      AlwaysSound(states, actions, i);
      StepRefines(states[i], actions[i]);
    }
  }

  /** Rows are never lost, and a settled row and its usage record never change again. */
  lemma {:induction false} SettledRowsAreFrozen(states: seq<Sys>, actions: seq<Action>, i: nat, j: nat)
    requires Run(states, actions) && i <= j < |states|
    ensures Preserves(states[i].t, states[j].t)
    decreases j
  {
    if i < j {
      SettledRowsAreFrozen(states, actions, i, j - 1);
      AlwaysSound(states, actions, j - 1);
      StepRefines(states[j - 1], actions[j - 1]);
      NextPreserves(states[j - 1].t, states[j].t);
      PreservesTransitive(states[i].t, states[j - 1].t, states[j].t);
    }
  }

  // ---------------------------------------------------------------- ownership

  /** Requests stay, keep what they asked, and never give ownership or execution back. */
  lemma {:induction false} RequestsPersist(states: seq<Sys>, actions: seq<Action>, i: nat, j: nat, pid: nat)
    requires Run(states, actions) && i <= j < |states| && pid in states[i].procs
    ensures pid in states[j].procs && states[j].procs[pid].req == states[i].procs[pid].req
    ensures states[i].procs[pid].owns ==> states[j].procs[pid].owns
    ensures states[i].procs[pid].executed ==> states[j].procs[pid].executed
    ensures states[i].procs[pid].pc.Done? ==> states[j].procs[pid] == states[i].procs[pid]
    decreases j
  {
    if i < j {
      RequestsPersist(states, actions, i, j - 1, pid);
    }
  }

  /** Over a whole run at most one request ever owns a slot, however leases expire. */
  lemma SingleOwner(states: seq<Sys>, actions: seq<Action>, i: nat, p: nat, j: nat, q: nat)
    requires Run(states, actions) && i < |states| && j < |states|
    requires p in states[i].procs && states[i].procs[p].owns
    requires q in states[j].procs && states[j].procs[q].owns
    requires states[i].procs[p].req.slot == states[j].procs[q].req.slot
    ensures p == q
  {
    var last := |states| - 1;
    RequestsPersist(states, actions, i, last, p);
    RequestsPersist(states, actions, j, last, q);
    AlwaysSound(states, actions, last);
    assert p != q ==> PairOk(states[last].procs[p], states[last].procs[q]);
  }

  /** The slot an action of a request works on. */
  function SlotOf(s: Sys, pid: nat): Slot
    requires pid in s.procs
  {
    s.procs[pid].req.slot
  }

  /** Each slot is reserved by at most one commit of the whole run. */
  lemma ReservedOnce(states: seq<Sys>, actions: seq<Action>, i: nat, j: nat)
    requires Run(states, actions) && i <= j < |actions|
    requires actions[i].Commit1? && actions[j].Commit1?
    requires SlotOf(states[i], actions[i].pid) == SlotOf(states[j], actions[j].pid)
    ensures i == j
  {
    AlwaysSound(states, actions, j);
    assert ProcOk(states[j].t, states[j].procs[actions[j].pid]);
    assert SlotOf(states[i], actions[i].pid) in states[i + 1].t.keys;
    if i < j {
      SettledRowsAreFrozen(states, actions, i + 1, j);
    }
  }

  /** Only an owner executes, and each slot is executed at most once in the whole run. */
  lemma ExecutedOnce(states: seq<Sys>, actions: seq<Action>, i: nat, j: nat)
    requires Run(states, actions) && i <= j < |actions|
    requires actions[i].Execute? && actions[j].Execute?
    requires SlotOf(states[i], actions[i].pid) == SlotOf(states[j], actions[j].pid)
    ensures states[i].procs[actions[i].pid].owns
    ensures i == j
  {
    AlwaysSound(states, actions, i);
    AlwaysSound(states, actions, j);
    assert ProcOk(states[i].t, states[i].procs[actions[i].pid]);
    assert ProcOk(states[j].t, states[j].procs[actions[j].pid]);
    SingleOwner(states, actions, i, actions[i].pid, j, actions[j].pid);
    if i < j {
      RequestsPersist(states, actions, i + 1, j, actions[i].pid);
    }
  }

  /** Each slot is settled by at most one commit of the whole run, and only after it was executed. */
  lemma SettledOnce(states: seq<Sys>, actions: seq<Action>, i: nat, j: nat)
    requires Run(states, actions) && i <= j < |actions|
    requires actions[i].Commit2? && actions[j].Commit2?
    requires SlotOf(states[i], actions[i].pid) == SlotOf(states[j], actions[j].pid)
    ensures i == j
  {
    AlwaysSound(states, actions, i);
    AlwaysSound(states, actions, j);
    Commit2Refines(states[i], actions[i].pid);
    assert ProcOk(states[j].t, states[j].procs[actions[j].pid]);
    if i < j {
      SettledRowsAreFrozen(states, actions, i + 1, j);
    }
  }

  /** The request an action is a step of, if it is one. */
  function ActorOf(a: Action): Option<nat> {
    match a
    case Tick(_) => None
    case NewBudget(_, _, _) => None
    case NewVersion(_) => None
    case DropVersion(_) => None
    case _ => Some(a.pid)
  }

  lemma {:induction false} OwnerRowStays(states: seq<Sys>, actions: seq<Action>, i: nat, j: nat, pid: nat, slot: Slot)
    requires Run(states, actions) && i <= j < |states|
    requires pid in states[i].procs && states[i].procs[pid].owns && SlotOf(states[i], pid) == slot && slot in states[i].t.keys
    requires forall k | i <= k < j :: ActorOf(actions[k]) != Some(pid)
    ensures pid in states[j].procs && states[j].procs[pid] == states[i].procs[pid]
    ensures slot in states[j].t.keys && states[j].t.keys[slot] == states[i].t.keys[slot]
    decreases j
  {
    if i < j {
      OwnerRowStays(states, actions, i, j - 1, pid, slot);
      AlwaysSound(states, actions, j - 1);
      OtherStepLeavesRow(states[j - 1], actions[j - 1], pid);
    }
  }

  /**
  What an owner may rely on while it awaits the provider: whatever the others do, the ledger stays
  sound, only moves as the ledger may, and the owner's pending row is exactly as it was.
  */
  lemma OthersLeaveOwnerAlone(states: seq<Sys>, actions: seq<Action>, i: nat, j: nat, pid: nat)
    requires Run(states, actions) && i <= j < |states|
    requires pid in states[i].procs && states[i].procs[pid].owns && !states[i].procs[pid].pc.Done?
    requires forall k | i <= k < j :: ActorOf(actions[k]) != Some(pid)
    ensures Sound(states[j].t) && Preserves(states[i].t, states[j].t)
    ensures var slot := SlotOf(states[i], pid);
            slot in states[i].t.keys && states[i].t.keys[slot].status.Pending?
            && slot in states[j].t.keys && states[j].t.keys[slot] == states[i].t.keys[slot]
  {
    AlwaysSound(states, actions, i);
    assert ProcOk(states[i].t, states[i].procs[pid]);
    OwnerRowStays(states, actions, i, j, pid, SlotOf(states[i], pid));
    AlwaysSound(states, actions, j);
    SettledRowsAreFrozen(states, actions, i, j);
  }

  lemma OtherStepLeavesRow(s: Sys, a: Action, pid: nat)
    requires Inv(s) && Enabled(s, a) && ActorOf(a) != Some(pid)
    requires pid in s.procs && s.procs[pid].owns
    ensures var slot := SlotOf(s, pid);
            slot in s.t.keys && slot in Apply(s, a).t.keys && Apply(s, a).t.keys[slot] == s.t.keys[slot]
    ensures pid in Apply(s, a).procs && Apply(s, a).procs[pid] == s.procs[pid]
  {
    assert ProcOk(s.t, s.procs[pid]);
    if a.Commit1? || a.Commit2? {
      assert ProcOk(s.t, s.procs[a.pid]) && PairOk(s.procs[pid], s.procs[a.pid]);
      CommitLeavesRow(s, a, SlotOf(s, pid));
    }
  }

  /** A commit touches the row of its own slot only. */
  lemma CommitLeavesRow(s: Sys, a: Action, slot: Slot)
    requires Enabled(s, a) && (a.Commit1? || a.Commit2?)
    requires slot in s.t.keys && SlotOf(s, a.pid) != slot
    ensures slot in Apply(s, a).t.keys && Apply(s, a).t.keys[slot] == s.t.keys[slot]
  {
  }

  // ---------------------------------------------------------------- reservation

  /** An insert is refused for want of a period, or for several, exactly if no budget covers the day, or two do. */
  lemma InsertNeedsOnePeriod(s: Sys, pid: nat, day: int)
    requires Enabled(s, Insert(pid, day))
    ensures Apply(s, Insert(pid, day)).procs[pid].pc == Done(NoActivePeriod) <==>
              forall b | b in s.t.budgets && b.team == SlotOf(s, pid).team :: !(b.start <= day < s.t.budgets[b].end)
    ensures Apply(s, Insert(pid, day)).procs[pid].pc == Done(AmbiguousPeriod) <==>
              exists b, c :: && b in s.t.budgets && c in s.t.budgets && b != c && b.team == c.team == SlotOf(s, pid).team
                             && b.start <= day < s.t.budgets[b].end && c.start <= day < s.t.budgets[c].end
  {
    CoveringPeriods(s.t, SlotOf(s, pid).team, day);
  }

  /** The statements of Transaction 1, run without another transaction in between, to the commit or to a refusal. */
  ghost function AcquireAll(s: Sys, pid: nat, day: int): Option<Sys> {
    if Enabled(s, Insert(pid, day)) then AcquireInserted(Apply(s, Insert(pid, day)), pid) else None
  }

  ghost function AcquireInserted(s: Sys, pid: nat): Option<Sys> {
    if Enabled(s, Commit1(pid)) then Some(Apply(s, Commit1(pid)))
    else if !Enabled(s, Deduct(pid)) then None else
      var s' := Apply(s, Deduct(pid));
      Some(if Enabled(s', Commit1(pid)) then Apply(s', Commit1(pid)) else s')
  }

  lemma InsertedCompletes(s: Sys, pid: nat, b: BudgetId)
    requires pid in s.procs && s.procs[pid].pc.Inserted? && Target(s.procs[pid]) == b && b in s.t.budgets
    requires BudgetFree(s, pid, b)
    ensures AcquireInserted(s, pid).Some?
    ensures var p, s' := s.procs[pid], AcquireInserted(s, pid).value;
            if p.req.cost <= s.t.budgets[b].remaining then
              && s'.procs[pid].pc == Owned && s'.procs[pid].owns
              && s'.t.budgets == s.t.budgets[b := s.t.budgets[b].(remaining := s.t.budgets[b].remaining - p.req.cost)]
              && s'.t.keys == s.t.keys[p.req.slot := p.pc.row]
              && s'.t.usage == s.t.usage && s'.t.versions == s.t.versions
            else
              s'.procs[pid].pc == Done(InsufficientBudget) && s'.t == s.t
  {
    if s.procs[pid].req.cost == 0 {
      assert s.t.budgets[b := s.t.budgets[b]] == s.t.budgets;
    } else {
      assert Enabled(s, Deduct(pid));
    }
  }

  lemma InsertsRow(s: Sys, pid: nat, day: int, b: BudgetId)
    requires Enabled(s, Insert(pid, day)) && SlotOf(s, pid) !in s.t.keys
    requires b in s.t.budgets && b.team == SlotOf(s, pid).team && b.start <= day < s.t.budgets[b].end
    requires forall c | c in s.t.budgets && c.team == b.team && c.start <= day < s.t.budgets[c].end :: c == b
    ensures var req := s.procs[pid].req;
            Apply(s, Insert(pid, day)) == At(s, pid, Inserted(KeyRow(b.start, req.hash, Pending, req.cost, s.now + 300)))
  {
    CoveringPeriods(s.t, b.team, day);
    assert ActivePeriods(s.t, b.team, day) == {b};
  }

  /**
  A new request whose day one budget covers, while nobody else holds that budget's row, owns its slot
  exactly if that budget can pay: then the budget has paid the reservation and the row is pending for
  300 seconds. Otherwise it is told so and nothing has changed.
  */
  lemma AcquireCompletes(s: Sys, pid: nat, day: int, b: BudgetId)
    requires Inv(s) && Enabled(s, Insert(pid, day)) && SlotOf(s, pid) !in s.t.keys
    requires b in s.t.budgets && b.team == SlotOf(s, pid).team && b.start <= day < s.t.budgets[b].end
    requires forall c | c in s.t.budgets && c.team == b.team && c.start <= day < s.t.budgets[c].end :: c == b
    requires BudgetFree(s, pid, b)
    ensures AcquireAll(s, pid, day).Some?
    ensures var req, s' := s.procs[pid].req, AcquireAll(s, pid, day).value;
            if req.cost <= s.t.budgets[b].remaining then
              && s'.procs[pid].pc == Owned && s'.procs[pid].owns
              && s'.t.budgets == s.t.budgets[b := s.t.budgets[b].(remaining := s.t.budgets[b].remaining - req.cost)]
              && s'.t.keys == s.t.keys[req.slot := KeyRow(b.start, req.hash, Pending, req.cost, s.now + 300)]
              && s'.t.usage == s.t.usage && s'.t.versions == s.t.versions
            else
              s'.procs[pid].pc == Done(InsufficientBudget) && s'.t == s.t
  {
    InsertsRow(s, pid, day, b);
    InsertedCompletes(Apply(s, Insert(pid, day)), pid, b);
  }

  // ---------------------------------------------------------------- settlement

  /** No request of any run ever ends in a refused refund, a lost claim or a second usage record. */
  lemma ImpossibleEndings(states: seq<Sys>, actions: seq<Action>, i: nat, pid: nat)
    requires Run(states, actions) && i < |states| && pid in states[i].procs
    ensures states[i].procs[pid].pc != Done(IntegrityFailure)
    ensures states[i].procs[pid].pc != Done(NotClaimed)
    ensures states[i].procs[pid].pc != Done(DuplicateUsage)
  {
    AlwaysSound(states, actions, i);
    assert ProcOk(states[i].t, states[i].procs[pid]);
  }

  /** The four statements of Transaction 2, run without another transaction in between. */
  ghost function SettleAll(s: Sys, pid: nat): Option<Sys> {
    if Enabled(s, Claim(pid)) then SettleClaimed(Apply(s, Claim(pid)), pid) else None
  }

  ghost function SettleClaimed(s: Sys, pid: nat): Option<Sys> {
    if Enabled(s, Refund(pid)) then SettleRefunded(Apply(s, Refund(pid)), pid) else None
  }

  ghost function SettleRefunded(s: Sys, pid: nat): Option<Sys> {
    if !Enabled(s, Record(pid)) then None else
      var s' := Apply(s, Record(pid));
      if Enabled(s', Commit2(pid)) then Some(Apply(s', Commit2(pid))) else None
  }

  /** What one statement of pid's Transaction 2 leaves for the next. */
  ghost predicate Follows(s: Sys, s': Sys, pid: nat, v: Verdict)
    requires pid in s.procs
  {
    && Inv(s') && s'.t == s.t && s'.now == s.now
    && s'.procs.Keys == s.procs.Keys
    && (forall q | q in s.procs && q != pid :: s'.procs[q] == s.procs[q])
    && s'.procs[pid].req == s.procs[pid].req
    && Settling(s'.procs[pid]) && s'.procs[pid].pc.verdict == v
  }

  lemma ClaimFollows(s: Sys, pid: nat)
    requires Inv(s) && pid in s.procs && s.procs[pid].pc.Resolved?
    ensures Enabled(s, Claim(pid)) && Apply(s, Claim(pid)).procs[pid].pc.Claimed?
    ensures Follows(s, Apply(s, Claim(pid)), pid, s.procs[pid].pc.verdict)
  {
    assert ProcOk(s.t, s.procs[pid]);
    RowIsFree(s, pid);
    ClaimNeverLost(s, pid);
    StepKeepsInv(s, Claim(pid));
  }

  lemma RefundFollows(s: Sys, pid: nat)
    requires Inv(s) && pid in s.procs && s.procs[pid].pc.Claimed?
    requires BudgetFree(s, pid, Target(s.procs[pid]))
    ensures Enabled(s, Refund(pid)) && Apply(s, Refund(pid)).procs[pid].pc.Refunded?
    ensures Follows(s, Apply(s, Refund(pid)), pid, s.procs[pid].pc.verdict)
  {
    RefundNeverRefused(s, pid);
    StepKeepsInv(s, Refund(pid));
  }

  lemma RecordFollows(s: Sys, pid: nat)
    requires Inv(s) && pid in s.procs && s.procs[pid].pc.Refunded?
    requires VersionStands(s.t, s.procs[pid].pc.verdict.usage)
    ensures Enabled(s, Record(pid)) && Apply(s, Record(pid)).procs[pid].pc.Recorded?
    ensures Follows(s, Apply(s, Record(pid)), pid, s.procs[pid].pc.verdict)
  {
    ClaimNeverLost(s, pid);
    StepKeepsInv(s, Record(pid));
  }

  lemma RefundedCompletes(s: Sys, pid: nat)
    requires Inv(s) && pid in s.procs && s.procs[pid].pc.Refunded?
    requires VersionStands(s.t, s.procs[pid].pc.verdict.usage)
    ensures SettleRefunded(s, pid).Some?
    ensures var p := s.procs[pid];
            && CanSettle(s.t, p.req.slot, p.pc.verdict.status, p.pc.verdict.usage)
            && SettleRefunded(s, pid).value.t == Settle(s.t, p.req.slot, p.pc.verdict.status, p.pc.verdict.usage)
            && SettleRefunded(s, pid).value.procs[pid].pc == Done(Settled)
  {
    RecordFollows(s, pid);
    Commit2Refines(Apply(s, Record(pid)), pid);
  }

  /** An insert that names a version that is gone ends the request and leaves its row an orphan. */
  lemma MissingVersionOrphans(s: Sys, pid: nat)
    requires Inv(s) && pid in s.procs && s.procs[pid].pc.Refunded?
    requires !VersionStands(s.t, s.procs[pid].pc.verdict.usage)
    ensures SettleRefunded(s, pid).None?
    ensures Enabled(s, Record(pid))
    ensures var s' := Apply(s, Record(pid));
            s'.t == s.t && s'.procs[pid].pc == Done(VersionMissing) && Orphaned(s', SlotOf(s, pid))
  {
    ClaimNeverLost(s, pid);
    assert ProcOk(s.t, s.procs[pid]);
    var s' := Apply(s, Record(pid));
    forall p | p in s'.procs && s'.procs[p].owns && s'.procs[p].req.slot == SlotOf(s, pid)
      ensures s'.procs[p].pc.Done?
    {
      assert p != pid ==> PairOk(s.procs[p], s.procs[pid]);
    }
  }

  /**
  A resolved request settles, while nobody else holds its budget row, if and only if the prompt
  version it used still exists: then all four statements succeed and together are exactly one atomic
  Settle. Otherwise nothing is settled, by MissingVersionOrphans for ever.
  */
  lemma SettlementCompletes(s: Sys, pid: nat)
    requires Inv(s) && pid in s.procs && s.procs[pid].pc.Resolved?
    requires var slot := s.procs[pid].req.slot;
             slot in s.t.keys ==> BudgetFree(s, pid, BudgetOf(slot, s.t.keys[slot]))
    ensures SettleAll(s, pid).Some? <==> VersionStands(s.t, s.procs[pid].pc.verdict.usage)
    ensures SettleAll(s, pid).Some? ==>
              var p := s.procs[pid];
              && CanSettle(s.t, p.req.slot, p.pc.verdict.status, p.pc.verdict.usage)
              && SettleAll(s, pid).value.t == Settle(s.t, p.req.slot, p.pc.verdict.status, p.pc.verdict.usage)
              && SettleAll(s, pid).value.procs[pid].pc == Done(Settled)
  {
    ClaimFollows(s, pid);
    var s1 := Apply(s, Claim(pid));
    RefundFollows(s1, pid);
    var s2 := Apply(s1, Refund(pid));
    if VersionStands(s.t, s.procs[pid].pc.verdict.usage) {
      RefundedCompletes(s2, pid);
    } else {
      MissingVersionOrphans(s2, pid);
    }
  }

  /** An owner's row is never locked by anyone else. */
  lemma RowIsFree(s: Sys, pid: nat)
    requires Inv(s) && pid in s.procs && s.procs[pid].owns
    ensures RowFree(s, pid, s.procs[pid].req.slot)
  {
    forall q | q in s.procs && q != pid
      ensures !(Settling(s.procs[q]) && s.procs[q].req.slot == s.procs[pid].req.slot)
    {
      assert PairOk(s.procs[pid], s.procs[q]) && ProcOk(s.t, s.procs[q]);
    }
  }

  /** The next statement of a request inside a transaction. */
  function NextStatement(p: Proc, pid: nat): Action
    requires Inserting(p) || Settling(p)
  {
    match p.pc
    case Inserted(_) => if p.req.cost > 0 then Deduct(pid) else Commit1(pid)
    case Deducted(_, _) => Commit1(pid)
    case Claimed(_, _) => Refund(pid)
    case Refunded(_, _, _) => Record(pid)
    case Recorded(_, _, _) => Commit2(pid)
  }

  predicate InTransaction(p: Proc) {
    Inserting(p) || Settling(p)
  }

  /** q holds the budget row that pid's next statement would update. */
  ghost predicate WaitsForBudget(s: Sys, pid: nat, q: nat)
    requires pid in s.procs && InTransaction(s.procs[pid])
  {
    q in s.procs && q != pid && HoldsBudget(s.procs[q], Target(s.procs[pid]))
  }

  /** q has an uncommitted insert of the key that pid's first statement would insert. */
  predicate WaitsForInsert(s: Sys, pid: nat, q: nat)
    requires pid in s.procs
  {
    q in s.procs && q != pid && Inserting(s.procs[q]) && s.procs[q].req.slot == s.procs[pid].req.slot
  }

  /** A request inside a transaction can move, or waits for the holder of its budget row, who can. */
  lemma HolderCanMove(s: Sys, pid: nat)
    requires pid in s.procs && InTransaction(s.procs[pid])
    ensures Enabled(s, NextStatement(s.procs[pid], pid))
            || exists q: nat :: WaitsForBudget(s, pid, q) && InTransaction(s.procs[q]) && Enabled(s, NextStatement(s.procs[q], q))
  {
    var p := s.procs[pid];
    if !Enabled(s, NextStatement(p, pid)) {
      assert !BudgetFree(s, pid, Target(p));
      var q :| q in s.procs && q != pid && HoldsBudget(s.procs[q], Target(p));
      assert WaitsForBudget(s, pid, q);
      HoldersWaitForNothing(s, q, Target(p));
    }
  }

  lemma HoldersWaitForNothing(s: Sys, q: nat, b: BudgetId)
    requires q in s.procs && HoldsBudget(s.procs[q], b)
    ensures InTransaction(s.procs[q]) && Enabled(s, NextStatement(s.procs[q], q))
  {
  }

  /**
  Waiting never deadlocks. A claim is never blocked. A blocked statement inside a transaction waits
  for the holder of its budget row, whose own next statement can run. A blocked insert waits for the
  uncommitted insert of its key, whose next statement can run or waits for such a holder.
  */
  lemma NoDeadlock(s: Sys, pid: nat, day: int)
    requires Inv(s) && pid in s.procs
    ensures s.procs[pid].pc.Resolved? ==> Enabled(s, Claim(pid))
    ensures InTransaction(s.procs[pid]) && !Enabled(s, NextStatement(s.procs[pid], pid)) ==>
              exists q: nat :: WaitsForBudget(s, pid, q) && InTransaction(s.procs[q]) && Enabled(s, NextStatement(s.procs[q], q))
    ensures s.procs[pid].pc.Checked? && !Enabled(s, Insert(pid, day)) ==>
              exists q: nat :: WaitsForInsert(s, pid, q)
                && (|| Enabled(s, NextStatement(s.procs[q], q))
                    || exists h: nat :: WaitsForBudget(s, q, h) && InTransaction(s.procs[h]) && Enabled(s, NextStatement(s.procs[h], h)))
  {
    var p := s.procs[pid];
    assert ProcOk(s.t, p);
    if p.pc.Resolved? {
      RowIsFree(s, pid);
    } else if InTransaction(p) {
      HolderCanMove(s, pid);
    } else if p.pc.Checked? && !Enabled(s, Insert(pid, day)) {
      var q :| q in s.procs && q != pid && Inserting(s.procs[q]) && s.procs[q].req.slot == p.req.slot;
      assert WaitsForInsert(s, pid, q);
      HolderCanMove(s, q);
    }
  }

  // ---------------------------------------------------------------- abandoned reservations

  /** A pending row whose owner, if this run has one, has stopped. */
  ghost predicate Orphaned(s: Sys, slot: Slot) {
    && slot in s.t.keys && s.t.keys[slot].status.Pending?
    && forall p | p in s.procs && s.procs[p].owns && s.procs[p].req.slot == slot :: s.procs[p].pc.Done?
  }

  lemma OrphanStaysOneStep(s: Sys, a: Action, slot: Slot)
    requires Inv(s) && Enabled(s, a) && Orphaned(s, slot)
    ensures Orphaned(Apply(s, a), slot)
    ensures Apply(s, a).t.keys[slot] == s.t.keys[slot]
  {
    if a.Commit1? || a.Commit2? {
      assert ProcOk(s.t, s.procs[a.pid]);
      assert s.procs[a.pid].req.slot != slot;
    }
  }

  /** No recovery: once its owner stops, a pending row holds its reservation for ever, lease or no lease. */
  lemma {:induction false} OrphanIsForever(states: seq<Sys>, actions: seq<Action>, i: nat, j: nat, slot: Slot)
    requires Run(states, actions) && i <= j < |states| && Orphaned(states[i], slot)
    ensures Orphaned(states[j], slot)
    ensures states[j].t.keys[slot] == states[i].t.keys[slot]
    ensures Charge(states[j].t, BudgetOf(slot, states[i].t.keys[slot]), slot) == states[i].t.keys[slot].reserved
    decreases j
  {
    if i < j {
      OrphanIsForever(states, actions, i, j - 1, slot);
      AlwaysSound(states, actions, j - 1);
      OrphanStaysOneStep(states[j - 1], actions[j - 1], slot);
    }
  }

  // ---------------------------------------------------------------- replay

  /**
  Replay stability: once a row is settled, a later lookup of its key, and a later insert while one
  budget covers the day, is answered from the row: for the same hash by the stored snapshot or the
  stored error code, for any other by a conflict, at any later time and whatever happened since.
  */
  lemma ReplayIsStable(states: seq<Sys>, actions: seq<Action>, i: nat, j: nat, pid: nat)
    requires Run(states, actions) && i <= j < |actions| && Asks(actions[j], pid)
    requires var slot := SlotOf(states[j], pid);
             slot in states[i].t.keys && !states[i].t.keys[slot].status.Pending?
    requires actions[j].Insert? ==> exists b ::
               && b in states[j].t.budgets && b.team == SlotOf(states[j], pid).team
               && b.start <= actions[j].day < states[j].t.budgets[b].end
               && forall c | c in states[j].t.budgets && c.team == b.team && c.start <= actions[j].day < states[j].t.budgets[c].end :: c == b
    ensures var row := states[i].t.keys[SlotOf(states[j], pid)];
            states[j + 1].procs[pid].pc ==
              Done(Answered(if states[j].procs[pid].req.hash != row.hash then Conflict else
                              match row.status
                              case Completed(snapshot) => Replay(snapshot)
                              case Failed(errorCode) => PreviouslyFailed(errorCode)))
    ensures states[j + 1].t == states[j].t
  {
    SettledRowsAreFrozen(states, actions, i, j);
    var slot := SlotOf(states[j], pid);
    assert states[j].t.keys[slot].(status := states[i].t.keys[slot].status) == states[i].t.keys[slot];
    AnsweredFromRow(states[j], actions[j], pid);
  }

  /** The two statements that may find a row for a request's key. */
  predicate Asks(a: Action, pid: nat) {
    (a.LookUp? || a.Insert?) && a.pid == pid
  }

  lemma AnsweredFromRow(s: Sys, a: Action, pid: nat)
    requires Enabled(s, a) && Asks(a, pid) && SlotOf(s, pid) in s.t.keys
    requires a.Insert? ==> exists b ::
               && b in s.t.budgets && b.team == SlotOf(s, pid).team && b.start <= a.day < s.t.budgets[b].end
               && forall c | c in s.t.budgets && c.team == b.team && c.start <= a.day < s.t.budgets[c].end :: c == b
    ensures Apply(s, a).t == s.t
    ensures Apply(s, a).procs[pid].pc == Done(Answered(Precheck(s.t.keys[SlotOf(s, pid)], s.procs[pid].req.hash, s.now)))
  {
    if a.Insert? {
      var team := SlotOf(s, pid).team;
      CoveringPeriods(s.t, team, a.day);
      var b :| b in ActivePeriods(s.t, team, a.day);
      assert ActivePeriods(s.t, team, a.day) == {b};
      RaceAgreesWithPrecheck(s.t.keys[SlotOf(s, pid)], s.procs[pid].req.hash, s.now);
    }
  }

  /** p is past its insert, and what it has not yet committed is the row of q. */
  predicate PastInsert(p: Proc, q: Proc) {
    && p.req == q.req && !p.pc.Start? && !p.pc.Checked?
    && (Inserting(p) ==> Inserting(q) && p.pc.row == q.pc.row)
  }

  lemma PastInsertStep(s: Sys, a: Action, pid: nat, q: Proc)
    requires Enabled(s, a) && pid in s.procs && PastInsert(s.procs[pid], q)
    ensures pid in Apply(s, a).procs && PastInsert(Apply(s, a).procs[pid], q)
  {
  }

  /** From its insert on, a request never inserts again, and what it has not yet committed is that row. */
  lemma {:induction false} InsertedRowStays(states: seq<Sys>, actions: seq<Action>, i: nat, k: nat, pid: nat)
    requires Run(states, actions) && i < k < |states| && actions[i].Insert? && actions[i].pid == pid
    ensures pid in states[i].procs && pid in states[i + 1].procs && states[i + 1].procs[pid].req == states[i].procs[pid].req
    ensures pid in states[k].procs && PastInsert(states[k].procs[pid], states[i + 1].procs[pid])
    decreases k
  {
    if k > i + 1 {
      InsertedRowStays(states, actions, i, k - 1, pid);
      PastInsertStep(states[k - 1], actions[k - 1], pid, states[i + 1].procs[pid]);
    }
  }

  /** What an insert that succeeded is about to commit. */
  lemma InsertedRow(s: Sys, pid: nat, day: int)
    requires Enabled(s, Insert(pid, day)) && Inserting(Apply(s, Insert(pid, day)).procs[pid])
    ensures var row := Apply(s, Insert(pid, day)).procs[pid].pc.row;
            && row == KeyRow(row.period, s.procs[pid].req.hash, Pending, s.procs[pid].req.cost, s.now + 300)
            && var b := BudgetId(SlotOf(s, pid).team, row.period);
            && b in s.t.budgets && b.start <= day < s.t.budgets[b].end
            && forall c | c in s.t.budgets && c.team == b.team && c.start <= day < s.t.budgets[c].end :: c == b
  {
    var periods := ActivePeriods(s.t, SlotOf(s, pid).team, day);
    CoveringPeriods(s.t, SlotOf(s, pid).team, day);
    assert |periods| == 1;
    var b := TheOne(periods);
    forall c | c in periods
      ensures c == b
    {
      OnlyOne(periods, b, c);
    }
  }

  /** The row a commit publishes is the one its insert made, when that was and for the budget that covered that day. */
  lemma CommittedRow(states: seq<Sys>, actions: seq<Action>, i: nat, c: nat, pid: nat, day: int)
    requires Run(states, actions) && i < c < |actions| && actions[i] == Insert(pid, day) && actions[c] == Commit1(pid)
    ensures var slot, req := SlotOf(states[i], pid), states[i].procs[pid].req;
            && slot in states[c + 1].t.keys
            && var row := states[c + 1].t.keys[slot];
            && row == KeyRow(row.period, req.hash, Pending, req.cost, states[i].now + 300)
            && var b := BudgetId(slot.team, row.period);
            && b in states[i].t.budgets && b.start <= day < states[i].t.budgets[b].end
            && forall x | x in states[i].t.budgets && x.team == b.team && x.start <= day < states[i].t.budgets[x].end :: x == b
  {
    InsertedRowStays(states, actions, i, c, pid);
    InsertedRow(states[i], pid, day);
  }

  /**
  The lease of a pending row: its key's insert, by p0 at time t, makes every later lookup of the
  pending row, and every later insert while one budget covers the day, answer that the request is in
  progress exactly until t + 300, and from then on that it has expired; another hash is a conflict.
  */
  lemma PendingUntilExpiry(states: seq<Sys>, actions: seq<Action>, i: nat, c: nat, j: nat, p0: nat, day0: int, pid: nat)
    requires Run(states, actions) && i < c < j < |actions| && actions[i] == Insert(p0, day0) && actions[c] == Commit1(p0)
    requires Asks(actions[j], pid) && SlotOf(states[j], pid) == SlotOf(states[i], p0)
    requires var slot := SlotOf(states[j], pid);
             slot in states[j].t.keys ==> states[j].t.keys[slot].status.Pending?
    requires actions[j].Insert? ==> exists b ::
               && b in states[j].t.budgets && b.team == SlotOf(states[j], pid).team
               && b.start <= actions[j].day < states[j].t.budgets[b].end
               && forall x | x in states[j].t.budgets && x.team == b.team && x.start <= actions[j].day < states[j].t.budgets[x].end :: x == b
    ensures states[j + 1].procs[pid].pc ==
              Done(Answered(if states[j].procs[pid].req.hash != states[i].procs[p0].req.hash then Conflict
                            else if states[j].now < states[i].now + 300 then InProgress
                            else ExpiredPending))
    ensures states[j + 1].t == states[j].t
  {
    CommittedRow(states, actions, i, c, p0, day0);
    SettledRowsAreFrozen(states, actions, c + 1, j);
    var slot := SlotOf(states[j], pid);
    assert states[j].t.keys[slot].(status := Pending) == states[c + 1].t.keys[slot];
    AnsweredFromRow(states[j], actions[j], pid);
  }

  /**
  A request that lost the race after its lookup gets the same answer from Transaction 1 exactly
  when the team has one active period; the period is looked up first.
  */
  lemma RaceAnswersAlike(s: Sys, pid: nat, day: int)
    requires Enabled(s, Insert(pid, day)) && SlotOf(s, pid) in s.t.keys
    ensures var p := s.procs[pid];
            Apply(s, Insert(pid, day)).procs[pid].pc == Done(Answered(Precheck(s.t.keys[p.req.slot], p.req.hash, s.now)))
            <==> |ActivePeriods(s.t, p.req.slot.team, day)| == 1
    ensures Apply(s, Insert(pid, day)).t == s.t
  {
    var p := s.procs[pid];
    RaceAgreesWithPrecheck(s.t.keys[p.req.slot], p.req.hash, s.now);
    if |ActivePeriods(s.t, p.req.slot.team, day)| == 0 {
      assert ActivePeriods(s.t, p.req.slot.team, day) == {};
    }
  }
}
