/**
Versioned prompt templates: the constraints and triggers on the table, and what they mean for
the audit link from a usage record back to the text that was rendered.
*/
module PromptVersions {
  import opened Wrappers

  datatype VersionStatus = Draft | Approved | Retired

  datatype Version = Version(name: string, number: int, template: string, fingerprint: string,
                             status: VersionStatus, approvedAt: Option<int>, retiredAt: Option<int>)

  datatype UpdateError = ImmutableField | InvalidTransition | CheckViolation | NoSuchRow | WrongStatus

  predicate IsFingerprint(s: string) {
    |s| == 64 && forall c | c in s :: '0' <= c <= '9' || 'a' <= c <= 'f'
  }

  /** The CHECK constraints; a comparison with NULL is not a violation. */
  predicate Checks(v: Version) {
    && NotBlank(v.name) && v.number > 0 && NotBlank(v.template) && IsFingerprint(v.fingerprint)
    && (!v.status.Draft? || v.approvedAt.None?)
    && (v.status.Draft? || v.approvedAt.Some?)
    && (v.status.Retired? || v.retiredAt.None?)
    && (!v.status.Retired? || v.retiredAt.Some?)
    && (v.retiredAt.None? || v.approvedAt.None? || v.retiredAt.value >= v.approvedAt.value)
  }

  predicate SameContent(v: Version, w: Version) {
    v.name == w.name && v.number == w.number && v.template == w.template && v.fingerprint == w.fingerprint
  }

  predicate Transition(before: VersionStatus, after: VersionStatus) {
    before == after || (before.Draft? && after.Approved?) || (before.Approved? && after.Retired?)
  }

  /** What the two triggers and the CHECKs together let an UPDATE do to a row. */
  predicate MayBecome(v: Version, w: Version) {
    SameContent(v, w) && Transition(v.status, w.status) && Checks(w)
  }

  function Rank(s: VersionStatus): nat {
    match s
    case Draft => 0
    case Approved => 1
    case Retired => 2
  }

  // ---------------------------------------------------------------- the table

  class VersionTable {
    var rows: map<nat, Version>

    constructor ()
      ensures rows == map[]
    {
      rows := map[];
    }

    /** One UPDATE statement: the triggers in name order, then the CHECKs. */
    method Update(id: nat, v: Version) returns (r: Result<(), UpdateError>)
      modifies this
      ensures r.Ok? <==> id in old(rows) && MayBecome(old(rows)[id], v)
      ensures r.Ok? ==>
                && id in old(rows)
                && var w := old(rows)[id];
                && v.name == w.name && v.number == w.number && v.template == w.template && v.fingerprint == w.fingerprint
                && (v.status == w.status || (w.status == Draft && v.status == Approved) || (w.status == Approved && v.status == Retired))
      ensures r.Ok? ==>
                && NotBlank(v.name) && v.number > 0 && NotBlank(v.template)
                && |v.fingerprint| == 64 && (forall c | c in v.fingerprint :: '0' <= c <= '9' || 'a' <= c <= 'f')
                && (v.status == Draft <==> v.approvedAt == None) && (v.status == Retired <==> v.retiredAt != None)
                && (v.status == Retired ==> v.retiredAt.value >= v.approvedAt.value)
      ensures r == Err(CheckViolation) ==>
                || !NotBlank(v.name) || v.number <= 0 || !NotBlank(v.template)
                || |v.fingerprint| != 64 || (exists c :: c in v.fingerprint && !('0' <= c <= '9' || 'a' <= c <= 'f'))
                || (v.status == Draft && v.approvedAt != None) || (v.status != Draft && v.approvedAt == None)
                || (v.status != Retired && v.retiredAt != None) || (v.status == Retired && v.retiredAt == None)
                || (v.approvedAt.Some? && v.retiredAt.Some? && v.retiredAt.value < v.approvedAt.value)
      ensures r.Ok? ==> rows == old(rows)[id := v]
      ensures r.Err? ==> rows == old(rows)
      ensures r == Err(NoSuchRow) <==> id !in old(rows)
      ensures r.Err? ==> r.error != WrongStatus
      ensures r == Err(ImmutableField) <==> id in old(rows) && !SameContent(old(rows)[id], v)
      ensures r == Err(InvalidTransition) <==>
                id in old(rows) && SameContent(old(rows)[id], v) && !Transition(old(rows)[id].status, v.status)
    {
      if id !in rows {
        return Err(NoSuchRow);
      }
      var before := rows[id];
      if v.name != before.name || v.number != before.number || v.template != before.template
         || v.fingerprint != before.fingerprint {
        return Err(ImmutableField);
      }
      if v.status != before.status {
        if !((before.status == Draft && v.status == Approved) || (before.status == Approved && v.status == Retired)) {
          return Err(InvalidTransition);
        }
      }
      if !Checks(v) {
        return Err(CheckViolation);
      }
      rows := rows[id := v];
      return Ok(());
    }

    /** The approve command: a draft only, and the database never refuses it. */
    method Approve(id: nat, now: int) returns (r: Result<(), UpdateError>)
      requires forall i | i in rows :: Checks(rows[i])
      modifies this
      ensures r.Ok? <==> id in old(rows) && old(rows)[id].status.Draft?
      ensures r.Err? ==> r.error == if id in old(rows) then WrongStatus else NoSuchRow
      ensures r.Ok? ==> rows == old(rows)[id := old(rows)[id].(status := Approved, approvedAt := Some(now))]
      ensures r.Err? ==> rows == old(rows)
      ensures forall i | i in rows :: Checks(rows[i])
    {
      if id !in rows {
        return Err(NoSuchRow);
      }
      if rows[id].status != Draft {
        return Err(WrongStatus);
      }
      r := Update(id, rows[id].(status := Approved, approvedAt := Some(now)));
    }

    /** The retire command: an approved version only, refused if the clock is behind its approval. */
    method Retire(id: nat, now: int) returns (r: Result<(), UpdateError>)
      requires forall i | i in rows :: Checks(rows[i])
      modifies this
      ensures r.Ok? <==> id in old(rows) && old(rows)[id].status.Approved?
                         && old(rows)[id].approvedAt.Some? && old(rows)[id].approvedAt.value <= now
      ensures r == Err(NoSuchRow) <==> id !in old(rows)
      ensures r == Err(WrongStatus) <==> id in old(rows) && !old(rows)[id].status.Approved?
      ensures r.Ok? ==> rows == old(rows)[id := old(rows)[id].(status := Retired, retiredAt := Some(now))]
      ensures r.Err? ==> rows == old(rows)
      ensures forall i | i in rows :: Checks(rows[i])
    {
      if id !in rows {
        return Err(NoSuchRow);
      }
      if rows[id].status != Approved {
        return Err(WrongStatus);
      }
      r := Update(id, rows[id].(status := Retired, retiredAt := Some(now)));
    }
  }

  // ---------------------------------------------------------------- requests that use versions

  /** A request that found version id approved and rendered its template over its input. */
  datatype Rendered = Rendered(id: nat, template: string, input: string, text: string)

  /** usage[r] is the version request r's usage record names. */
  datatype Audit = Audit(rows: map<nat, Version>, rendered: map<nat, Rendered>, usage: map<nat, nat>)

  const NOTHING: Audit := Audit(map[], map[], map[])

  /** Rekey and Delete have no command in the repository; they stand for direct SQL. */
  datatype Change =
    | Insert(id: nat, version: Version)
    | Update(id: nat, version: Version)
    | Rekey(id: nat, to: nat)
    | Delete(id: nat)
    | LookUp(request: nat, id: nat, input: string)
    | Record(request: nat)

  /** Substitution into a template; any function of its text and the input. */
  type Render = (string, string) -> string

  /** The foreign key restricts deleting or renumbering a version some usage record names. */
  ghost predicate Referenced(a: Audit, id: nat) {
    exists r :: r in a.usage && a.usage[r] == id
  }

  ghost predicate Allowed(a: Audit, c: Change) {
    match c
    case Insert(id, v) =>
      && id !in a.rows && Checks(v)
      && forall i | i in a.rows :: a.rows[i].name != v.name || a.rows[i].number != v.number
    case Update(id, v) => id in a.rows && MayBecome(a.rows[id], v)
    case Rekey(id, to) => id in a.rows && to !in a.rows && !Referenced(a, id)
    case Delete(id) => id in a.rows && !Referenced(a, id)
    case LookUp(r, id, input) => r !in a.rendered && id in a.rows && a.rows[id].status.Approved?
    case Record(r) => r in a.rendered && r !in a.usage && a.rendered[r].id in a.rows
  }

  function Made(render: Render, a: Audit, c: Change): Audit
    requires Allowed(a, c)
  {
    match c
    case Insert(id, v) => a.(rows := a.rows[id := v])
    case Update(id, v) => a.(rows := a.rows[id := v])
    case Rekey(id, to) => a.(rows := (a.rows - {id})[to := a.rows[id]])
    case Delete(id) => a.(rows := a.rows - {id})
    case LookUp(r, id, input) =>
      var template := a.rows[id].template;
      a.(rendered := a.rendered[r := Rendered(id, template, input, render(template, input))])
    case Record(r) => a.(usage := a.usage[r := a.rendered[r].id])
  }

  ghost predicate History(render: Render, states: seq<Audit>, changes: seq<Change>) {
    && |states| == |changes| + 1 && states[0] == NOTHING
    && forall i | 0 <= i < |changes| ::
         Allowed(states[i], changes[i]) && states[i + 1] == Made(render, states[i], changes[i])
  }

  /** The change puts a row under this id. */
  predicate GivesId(c: Change, id: nat) {
    match c
    case Insert(given, _) => given == id
    case Rekey(_, to) => to == id
    case _ => false
  }

  /** Same content, and a status no earlier in the life cycle. */
  predicate Advanced(v: Version, w: Version) {
    SameContent(v, w) && Rank(v.status) <= Rank(w.status)
  }

  /** A version only moves forward and its content never changes, for as long as no row is given its id. */
  lemma {:induction false} VersionsMoveForward(render: Render, states: seq<Audit>, changes: seq<Change>, i: nat, j: nat, id: nat)
    requires History(render, states, changes) && i <= j < |states| && id in states[i].rows
    requires forall k | i <= k < j :: !GivesId(changes[k], id)
    ensures id in states[j].rows ==> Advanced(states[i].rows[id], states[j].rows[id])
    decreases j
  {
    if i < j {
      VersionsMoveForward(render, states, changes, i, j - 1, id);
      assert states[j] == Made(render, states[j - 1], changes[j - 1]);
    }
  }

  /** What was rendered and recorded stays as it was. */
  lemma {:induction false} RecordsStay(render: Render, states: seq<Audit>, changes: seq<Change>, i: nat, j: nat, r: nat)
    requires History(render, states, changes) && i <= j < |states|
    ensures r in states[i].rendered ==> r in states[j].rendered && states[j].rendered[r] == states[i].rendered[r]
    ensures r in states[i].usage ==> r in states[j].usage && states[j].usage[r] == states[i].usage[r]
    decreases j
  {
    if i < j {
      RecordsStay(render, states, changes, i, j - 1, r);
    }
  }

  /** From the record on, the version it names is referenced: it stays, and only moves forward. */
  lemma {:induction false} RecordedVersionStays(render: Render, states: seq<Audit>, changes: seq<Change>, m: nat, n: nat, r: nat)
    requires History(render, states, changes) && m < n < |states| && changes[m] == Record(r)
    ensures r in states[m].rendered && r in states[n].usage && states[n].usage[r] == states[m].rendered[r].id
    ensures var id := states[m].rendered[r].id;
            id in states[m].rows && id in states[n].rows && Advanced(states[m].rows[id], states[n].rows[id])
    decreases n
  {
    assert Allowed(states[m], changes[m]) && states[m + 1] == Made(render, states[m], changes[m]);
    if m + 1 < n {
      RecordedVersionStays(render, states, changes, m, n - 1, r);
      assert Referenced(states[n - 1], states[m].rendered[r].id);
      assert Allowed(states[n - 1], changes[n - 1]) && states[n] == Made(render, states[n - 1], changes[n - 1]);
    }
  }

  /** The audit link of request r: its version exists, was at least approved, and has the template that was rendered. */
  predicate Linked(a: Audit, r: nat, id: nat) {
    r in a.rendered && id in a.rows && !a.rows[id].status.Draft? && a.rows[id].template == a.rendered[r].template
  }

  /**
  The record decides: whatever came before, and whatever changes follow, the named version has the
  rendered template at any later time if and only if it had it when the record was inserted; and
  the whole link, once it holds there, holds for ever.
  */
  lemma RecordDecidesLink(render: Render, states: seq<Audit>, changes: seq<Change>, m: nat, n: nat, r: nat)
    requires History(render, states, changes) && m < n < |states| && changes[m] == Record(r)
    ensures r in states[m].rendered && r in states[n].usage && r in states[n].rendered
    ensures var id := states[n].usage[r];
            && id == states[m].rendered[r].id && id in states[m].rows && id in states[n].rows
            && (states[n].rows[id].template == states[n].rendered[r].template
                <==> states[m].rows[id].template == states[m].rendered[r].template)
            && (Linked(states[m], r, id) ==> Linked(states[n], r, id))
            && (states[m].rows[id].status != Draft ==> states[n].rows[id].status != Draft)
  {
    RecordedVersionStays(render, states, changes, m, n, r);
    RecordsStay(render, states, changes, m, n, r);
  }

  /** Every usage record was preceded by its insert, and that by its lookup. */
  lemma {:induction false} LookUpAndRecordOf(render: Render, states: seq<Audit>, changes: seq<Change>, n: nat, r: nat)
    returns (j: nat, m: nat)
    requires History(render, states, changes) && n < |states| && r in states[n].usage
    ensures j < m < n && changes[m] == Record(r)
    ensures changes[j].LookUp? && changes[j].request == r && changes[j].id == states[n].usage[r]
  {
    assert states[n] == Made(render, states[n - 1], changes[n - 1]);
    if r in states[n - 1].usage {
      j, m := LookUpAndRecordOf(render, states, changes, n - 1, r);
    } else {
      m := n - 1;
      j := LookUpOf(render, states, changes, m, r);
    }
  }

  lemma {:induction false} LookUpOf(render: Render, states: seq<Audit>, changes: seq<Change>, n: nat, r: nat) returns (j: nat)
    requires History(render, states, changes) && n < |states| && r in states[n].rendered
    ensures j < n && changes[j].LookUp? && changes[j].request == r && changes[j].id == states[n].rendered[r].id
  {
    assert states[n] == Made(render, states[n - 1], changes[n - 1]);
    if r in states[n - 1].rendered {
      j := LookUpOf(render, states, changes, n - 1, r);
    } else {
      j := n - 1;
    }
  }

  /**
  Audit linkage: when no row was given the version's id between its lookup and the record, the
  record names a version that exists, is approved or retired, was approved when it was looked up,
  and still has the template whose rendering was sent, after any number of later changes.
  */
  lemma AuditLinkage(render: Render, states: seq<Audit>, changes: seq<Change>, j: nat, m: nat, n: nat, r: nat)
    requires History(render, states, changes) && j < m < n < |states|
    requires changes[j].LookUp? && changes[j].request == r && changes[m] == Record(r)
    requires forall k | j < k < m :: !GivesId(changes[k], changes[j].id)
    ensures var id := changes[j].id;
            && r in states[n].usage && states[n].usage[r] == id && r in states[n].rendered
            && id in states[n].rows && states[n].rows[id].status != Draft
            && id in states[j].rows && states[j].rows[id].status.Approved?
            && states[n].rows[id].template == states[j].rows[id].template
            && states[n].rendered[r].text == render(states[n].rows[id].template, changes[j].input)
  {
    var id := changes[j].id;
    assert Allowed(states[j], changes[j]) && states[j + 1] == Made(render, states[j], changes[j]);
    RecordsStay(render, states, changes, j + 1, n, r);
    RecordsStay(render, states, changes, j + 1, m, r);
    assert Allowed(states[m], changes[m]);
    VersionsMoveForward(render, states, changes, j, m, id);
    RecordDecidesLink(render, states, changes, m, n, r);
  }

  /**
  Otherwise it can break, by direct SQL: an approved row is deleted between lookup and record and a
  draft takes its id.
  */
  lemma ReusedIdBreaksLinkage(render: Render, v: Version, w: Version) returns (states: seq<Audit>, changes: seq<Change>)
    requires Checks(v) && Checks(w) && v.status.Approved? && w.status.Draft? && v.template != w.template
    ensures History(render, states, changes)
    ensures var last := states[|states| - 1];
            && 0 in last.usage && last.usage[0] in last.rows && last.rows[last.usage[0]] == w
            && 0 in last.rendered && last.rendered[0].template == v.template
  {
    changes := [Insert(1, v), LookUp(0, 1, ""), Delete(1), Insert(1, w), Record(0)];
    var s1 := Made(render, NOTHING, changes[0]);
    var s2 := Made(render, s1, changes[1]);
    var s3 := Made(render, s2, changes[2]);
    var s4 := Made(render, s3, changes[3]);
    states := [NOTHING, s1, s2, s3, s4, Made(render, s4, changes[4])];
  }
}
