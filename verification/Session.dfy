/** A tenant-scoped database session on Postgres: transaction-local settings that every commit resets,
    and row visibility that is a policy over them (app/core/database.py:34-98, app/audit/service.py:14-45,
    alembic/versions/e5f6a7b8c9d0_rls_platform_admin_bypass.py:43-61). */
module Session {
  import opened Common

  datatype Row = Row(table: string, id: string, tenant: string, body: string)

  /** current_setting('app.current_tenant_id') and current_setting('app.is_platform_admin'); None is NULL. */
  datatype Settings = Settings(tenant: Option<string>, admin: Option<string>)

  /** One USING / WITH CHECK predicate, the same on all nine tables. */
  predicate Admits(s: Settings, row: Row) {
    s.tenant == Some(row.tenant) || s.admin == Some("true")
  }

  function Visible(s: Settings, rows: seq<Row>): seq<Row> {
    if rows == [] then []
    else if Admits(s, rows[0]) then [rows[0]] + Visible(s, rows[1..])
    else Visible(s, rows[1..])
  }

  /** Statements. `where` and `to` are what the statement's own text computes on a row. */
  datatype Op =
    | SetTenantContext(tenant: string)
    | SetPlatformAdminContext
    | Select(where: Row -> bool)
    | Insert(row: Row)
    | Update(where: Row -> bool, to: Row -> Row)
    | Delete(where: Row -> bool)
    | Commit

  datatype Answer = Done | Rows(rows: seq<Row>) | PolicyViolation

  /** The tables, committed and as this transaction sees them; the settings now, and those a commit
      falls back to, which a pooled connection may have inherited from anyone. */
  datatype Conn = Conn(committed: seq<Row>, work: seq<Row>, local: Settings, inherited: Settings)

  function Picked(rows: seq<Row>, where: Row -> bool): seq<Row> {
    if rows == [] then []
    else if where(rows[0]) then [rows[0]] + Picked(rows[1..], where)
    else Picked(rows[1..], where)
  }

  /** UPDATE under the policy: None if a changed row fails WITH CHECK. */
  function Updated(s: Settings, rows: seq<Row>, where: Row -> bool, to: Row -> Row): Option<seq<Row>> {
    if rows == [] then Some([])
    else match Updated(s, rows[1..], where, to)
      case None => None
      case Some(rest) =>
        if !(Admits(s, rows[0]) && where(rows[0])) then Some([rows[0]] + rest)
        else if Admits(s, to(rows[0])) then Some([to(rows[0])] + rest) else None
  }

  function Deleted(s: Settings, rows: seq<Row>, where: Row -> bool): seq<Row> {
    if rows == [] then []
    else if Admits(s, rows[0]) && where(rows[0]) then Deleted(s, rows[1..], where)
    else [rows[0]] + Deleted(s, rows[1..], where)
  }

  /** A failed statement aborts: the transaction's changes and settings are gone. */
  function RolledBack(c: Conn): Conn {
    c.(work := c.committed, local := c.inherited)
  }

  function Exec(c: Conn, op: Op): (Conn, Answer) {
    match op
    case SetTenantContext(t) => (c.(local := Settings(Some(t), Some("false"))), Done)
    case SetPlatformAdminContext => (c.(local := c.local.(admin := Some("true"))), Done)
    case Select(where) => (c, Rows(Picked(Visible(c.local, c.work), where)))
    case Insert(row) =>
      if Admits(c.local, row) then (c.(work := c.work + [row]), Done) else (RolledBack(c), PolicyViolation)
    case Update(where, to) =>
      (match Updated(c.local, c.work, where, to)
       case Some(rows) => (c.(work := rows), Done)
       case None => (RolledBack(c), PolicyViolation))
    case Delete(where) => (c.(work := Deleted(c.local, c.work, where)), Done)
    case Commit => (c.(committed := c.work, local := c.inherited), Done)
  }

  /** A handler: what it does next depends on the answers it has had so far. */
  type Handler = seq<Answer> -> Option<Op>

  /** Run a handler for at most n statements. */
  function Run(c: Conn, handler: Handler, heard: seq<Answer>, n: nat): (Conn, seq<Answer>)
    decreases n
  {
    if n == 0 then (c, heard)
    else match handler(heard)
      case None => (c, heard)
      case Some(op) =>
        var (d, answer) := Exec(c, op);
        Run(d, handler, heard + [answer], n - 1)
  }

  /** Whether the session is scoped to t after a statement: SetTenantContext(t) scopes it, commits, failures,
      other contexts unscope it. */
  predicate StillArmed(op: Op, answer: Answer, t: string, armed: bool) {
    match op
    case SetTenantContext(u) => u == t
    case SetPlatformAdminContext => false
    case Commit => false
    case _ => armed && !answer.PolicyViolation?
  }

  predicate TouchesRows(op: Op) {
    op.Select? || op.Insert? || op.Update? || op.Delete?
  }

  /** Every statement that touches rows comes after a SetTenantContext(t) with no commit in between. */
  predicate Scoped(c: Conn, handler: Handler, heard: seq<Answer>, n: nat, t: string, armed: bool)
    decreases n
  {
    n > 0 && handler(heard).Some? ==>
      var op := handler(heard).value;
      var (d, answer) := Exec(c, op);
      && (TouchesRows(op) ==> armed)
      && Scoped(d, handler, heard + [answer], n - 1, t, StillArmed(op, answer, t, armed))
  }

  predicate ArmedFor(s: Settings, t: string) {
    s == Settings(Some(t), Some("false"))
  }

  /** The rows of tenant t, and everyone else's. */
  function Own(rows: seq<Row>, t: string): seq<Row> {
    if rows == [] then []
    else if rows[0].tenant == t then [rows[0]] + Own(rows[1..], t)
    else Own(rows[1..], t)
  }

  function Others(rows: seq<Row>, t: string): seq<Row> {
    if rows == [] then []
    else if rows[0].tenant != t then [rows[0]] + Others(rows[1..], t)
    else Others(rows[1..], t)
  }

  // ---------------------------------------------------------------- one statement in tenant scope

  lemma {:induction false} VisibleIsOwn(s: Settings, rows: seq<Row>, t: string)
    requires ArmedFor(s, t)
    ensures Visible(s, rows) == Own(rows, t)
    decreases |rows|
  {
    if rows != [] { VisibleIsOwn(s, rows[1..], t); }
  }

  lemma {:induction false} DeleteSplits(s: Settings, rows: seq<Row>, where: Row -> bool, t: string)
    requires ArmedFor(s, t)
    ensures Others(Deleted(s, rows, where), t) == Others(rows, t)
    ensures Own(Deleted(s, rows, where), t) == Deleted(s, Own(rows, t), where)
    decreases |rows|
  {
    if rows != [] {
      DeleteSplits(s, rows[1..], where, t);
      ConsSplits(rows[0], Deleted(s, rows[1..], where), t);
      ConsSplits(rows[0], rows[1..], t);
      var own := Own(rows[1..], t);
      assert ([rows[0]] + own)[1..] == own;
      assert rows == [rows[0]] + rows[1..];
    }
  }

  lemma ConsSplits(row: Row, rows: seq<Row>, t: string)
    ensures Own([row] + rows, t) == if row.tenant == t then [row] + Own(rows, t) else Own(rows, t)
    ensures Others([row] + rows, t) == if row.tenant != t then [row] + Others(rows, t) else Others(rows, t)
  {
    assert ([row] + rows)[1..] == rows;
  }

  lemma {:induction false} UpdateSplits(s: Settings, rows: seq<Row>, where: Row -> bool, to: Row -> Row, t: string)
    requires ArmedFor(s, t)
    ensures Updated(s, rows, where, to).Some? <==> Updated(s, Own(rows, t), where, to).Some?
    ensures Updated(s, rows, where, to).Some? ==>
      && Own(Updated(s, rows, where, to).value, t) == Updated(s, Own(rows, t), where, to).value
      && Others(Updated(s, rows, where, to).value, t) == Others(rows, t)
    decreases |rows|
  {
    if rows != [] {
      var row, rest := rows[0], rows[1..];
      UpdateSplits(s, rest, where, to, t);
      assert rows == [row] + rest;
      ConsSplits(row, rest, t);
      assert ([row] + Own(rest, t))[1..] == Own(rest, t);
      if Updated(s, rest, where, to).Some? {
        var after := Updated(s, rest, where, to).value;
        ConsSplits(row, after, t);
        ConsSplits(to(row), after, t);
      }
    }
  }

  lemma {:induction false} AppendSplits(rows: seq<Row>, row: Row, t: string)
    ensures Own(rows + [row], t) == if row.tenant == t then Own(rows, t) + [row] else Own(rows, t)
    ensures Others(rows + [row], t) == if row.tenant != t then Others(rows, t) + [row] else Others(rows, t)
    decreases |rows|
  {
    if rows == [] {
      assert rows + [row] == [row] + [];
      ConsSplits(row, [], t);
    } else {
      AppendSplits(rows[1..], row, t);
      assert rows + [row] == [rows[0]] + (rows[1..] + [row]);
      ConsSplits(rows[0], rows[1..] + [row], t);
    }
  }

  /** What tenant t can learn from or do to the connection is the same in both. */
  ghost predicate Alike(c: Conn, d: Conn, t: string) {
    && Own(c.committed, t) == Own(d.committed, t)
    && Own(c.work, t) == Own(d.work, t)
  }

  ghost predicate OthersKept(c: Conn, d: Conn, t: string) {
    && Others(d.committed, t) == Others(c.committed, t)
    && Others(d.work, t) == Others(c.work, t)
  }

  /** What one statement does to a pair of connections that look alike to t. */
  ghost predicate Separate(c: Conn, d: Conn, op: Op, t: string) {
    var (c', a) := Exec(c, op);
    var (d', b) := Exec(d, op);
    a == b && Alike(c', d', t) && OthersKept(c, c', t) && Others(c'.work, t) == Others(c'.committed, t)
  }

  lemma ScopedSelect(c: Conn, d: Conn, where: Row -> bool, t: string)
    requires ArmedFor(c.local, t) && ArmedFor(d.local, t) && Alike(c, d, t)
    requires Others(c.work, t) == Others(c.committed, t)
    ensures Separate(c, d, Select(where), t)
  {
    VisibleIsOwn(c.local, c.work, t);
    VisibleIsOwn(d.local, d.work, t);
  }

  lemma ScopedInsert(c: Conn, d: Conn, row: Row, t: string)
    requires ArmedFor(c.local, t) && ArmedFor(d.local, t) && Alike(c, d, t)
    requires Others(c.work, t) == Others(c.committed, t)
    ensures Separate(c, d, Insert(row), t)
  {
    if row.tenant == t {
      AppendSplits(c.work, row, t);
      AppendSplits(d.work, row, t);
      assert Exec(c, Insert(row)) == (c.(work := c.work + [row]), Done);
      assert Exec(d, Insert(row)) == (d.(work := d.work + [row]), Done);
    } else {
      assert Exec(c, Insert(row)) == (RolledBack(c), PolicyViolation);
      assert Exec(d, Insert(row)) == (RolledBack(d), PolicyViolation);
    }
  }

  lemma ScopedUpdate(c: Conn, d: Conn, where: Row -> bool, to: Row -> Row, t: string)
    requires ArmedFor(c.local, t) && ArmedFor(d.local, t) && Alike(c, d, t)
    requires Others(c.work, t) == Others(c.committed, t)
    ensures Separate(c, d, Update(where, to), t)
  {
    UpdateSplits(c.local, c.work, where, to, t);
    UpdateSplits(d.local, d.work, where, to, t);
  }

  lemma ScopedDelete(c: Conn, d: Conn, where: Row -> bool, t: string)
    requires ArmedFor(c.local, t) && ArmedFor(d.local, t) && Alike(c, d, t)
    requires Others(c.work, t) == Others(c.committed, t)
    ensures Separate(c, d, Delete(where), t)
  {
    DeleteSplits(c.local, c.work, where, t);
    DeleteSplits(d.local, d.work, where, t);
  }

  /** A statement keeps the session scoped while `StillArmed` says so. */
  lemma StaysArmed(c: Conn, op: Op, t: string, armed: bool)
    requires armed ==> ArmedFor(c.local, t)
    ensures var (c', a) := Exec(c, op); StillArmed(op, a, t, armed) ==> ArmedFor(c'.local, t)
  {
  }

  /** In tenant scope a statement's answer is a function of t's rows, and nobody else's rows change. */
  lemma ScopedStatement(c: Conn, d: Conn, op: Op, t: string, armed: bool)
    requires TouchesRows(op) ==> armed
    requires armed ==> ArmedFor(c.local, t) && ArmedFor(d.local, t)
    requires Alike(c, d, t)
    requires Others(c.work, t) == Others(c.committed, t)
    ensures Separate(c, d, op, t)
    ensures var (c', a) := Exec(c, op); var (d', _) := Exec(d, op);
      StillArmed(op, a, t, armed) ==> ArmedFor(c'.local, t) && ArmedFor(d'.local, t)
  {
    StaysArmed(c, op, t, armed);
    StaysArmed(d, op, t, armed);
    match op
    case Select(where) => ScopedSelect(c, d, where, t);
    case Insert(row) => ScopedInsert(c, d, row, t);
    case Update(where, to) => ScopedUpdate(c, d, where, to, t);
    case Delete(where) => ScopedDelete(c, d, where, t);
    case _ =>
  }

  // ---------------------------------------------------------------- tenant separation over whole handlers

  lemma {:induction false} SeparationFrom(c: Conn, d: Conn, handler: Handler, heard: seq<Answer>, n: nat, t: string,
                                          armed: bool)
    requires Scoped(c, handler, heard, n, t, armed)
    requires armed ==> ArmedFor(c.local, t) && ArmedFor(d.local, t)
    requires Alike(c, d, t)
    requires Others(c.work, t) == Others(c.committed, t)
    ensures Run(c, handler, heard, n).1 == Run(d, handler, heard, n).1
    ensures Alike(Run(c, handler, heard, n).0, Run(d, handler, heard, n).0, t)
    ensures OthersKept(c, Run(c, handler, heard, n).0, t)
    decreases n
  {
    if n > 0 && handler(heard).Some? {
      var op := handler(heard).value;
      ScopedStatement(c, d, op, t, armed);
      var (c', a) := Exec(c, op);
      var (d', _) := Exec(d, op);
      SeparationFrom(c', d', handler, heard + [a], n - 1, t, StillArmed(op, a, t, armed));
    }
  }

  function Opened(rows: seq<Row>, inherited: Settings): Conn {
    Conn(rows, rows, inherited, inherited)
  }

  /** From any inherited settings, a leftover administrator flag included, a handler whose every row
      statement is scoped to t gets answers that depend on t's rows alone and leaves all other rows as they were. */
  lemma TenantSeparation(rows: seq<Row>, rows': seq<Row>, inherited: Settings, inherited': Settings,
                         handler: Handler, n: nat, t: string)
    requires Own(rows, t) == Own(rows', t)
    requires Scoped(Opened(rows, inherited), handler, [], n, t, false)
    ensures Run(Opened(rows, inherited), handler, [], n).1 == Run(Opened(rows', inherited'), handler, [], n).1
    ensures Others(Run(Opened(rows, inherited), handler, [], n).0.committed, t) == Others(rows, t)
    ensures Own(Run(Opened(rows, inherited), handler, [], n).0.committed, t)
         == Own(Run(Opened(rows', inherited'), handler, [], n).0.committed, t)
  {
    SeparationFrom(Opened(rows, inherited), Opened(rows', inherited'), handler, [], n, t, false);
  }

  // ---------------------------------------------------------------- the session object

  /** AsyncSession on one pooled connection. */
  class DbSession {
    var committed: seq<Row>
    var work: seq<Row>
    var local: Settings
    const inherited: Settings

    constructor (rows: seq<Row>, inherited: Settings)
      ensures State() == Opened(rows, inherited)
    {
      committed, work, local, this.inherited := rows, rows, inherited, inherited;
    }

    function State(): Conn
      reads this
    {
      Conn(committed, work, local, inherited)
    }

    /** set_config(..., true) twice: the tenant, and the administrator flag off. */
    method SetTenantContext(tenant: string)
      modifies this`local
      ensures State() == Exec(old(State()), Op.SetTenantContext(tenant)).0
      ensures ArmedFor(local, tenant)
    {
      local := local.(tenant := Some(tenant));
      local := local.(admin := Some("false"));
    }

    method SetPlatformAdminContext()
      modifies this`local
      ensures State() == Exec(old(State()), Op.SetPlatformAdminContext).0
      ensures forall row :: Admits(local, row)
    {
      local := local.(admin := Some("true"));
    }

    method Add(row: Row) returns (answer: Answer)
      modifies this
      ensures (State(), answer) == Exec(old(State()), Insert(row))
    {
      if Admits(local, row) {
        work := work + [row];
        answer := Done;
      } else {
        work, local := committed, inherited;
        answer := PolicyViolation;
      }
    }

    method CommitWork()
      modifies this
      ensures State() == Exec(old(State()), Commit).0
    {
      committed, local := work, inherited;
    }

    /** record_audit: never rejected, whatever the session did or inherited before, and it adds exactly
        its own row to what the session had pending. */
    method RecordAudit(tenant: string, id: string, body: string) returns (answer: Answer)
      modifies this
      ensures answer == Done
      ensures committed == old(work) + [Row("audit_logs", id, tenant, body)] && work == committed
      ensures local == inherited
    {
      SetTenantContext(tenant);
      answer := Add(Row("audit_logs", id, tenant, body));
      CommitWork();
    }
  }

  /** The statements of record_audit, whoever runs them and after whatever history, are scoped. */
  function AuditScript(tenant: string, id: string, body: string): Handler {
    (heard: seq<Answer>) =>
      if |heard| == 0 then Some(SetTenantContext(tenant))
      else if |heard| == 1 then Some(Insert(Row("audit_logs", id, tenant, body)))
      else if |heard| == 2 then Some(Commit)
      else None
  }

  lemma RecordAuditIsScoped(c: Conn, tenant: string, id: string, body: string, n: nat)
    ensures Scoped(c, AuditScript(tenant, id, body), [], n, tenant, false)
  {
    var h := AuditScript(tenant, id, body);
    var (d, a) := Exec(c, SetTenantContext(tenant));
    var (e, b) := Exec(d, Insert(Row("audit_logs", id, tenant, body)));
    var (f, z) := Exec(e, Commit);
    var one, two, three := [] + [a], [] + [a] + [b], [] + [a] + [b] + [z];
    if n > 2 {
      assert h(three).None?;
      assert Scoped(f, h, three, n - 3, tenant, false);
      assert h(two) == Some(Commit) && StillArmed(Commit, z, tenant, true) == false;
    }
    if n > 1 {
      assert Scoped(e, h, two, n - 2, tenant, true);
      assert h(one) == Some(Insert(Row("audit_logs", id, tenant, body)));
    }
    if n > 0 {
      assert Scoped(d, h, one, n - 1, tenant, true);
    }
  }

  // ---------------------------------------------------------------- which rows a statement changes

  /** An UPDATE changes the rows its own WHERE matches and the policy shows, each as it says, and no other; it is
      rejected exactly if the policy would hide a row it changed. */
  lemma {:induction false} UpdateReads(s: Settings, rows: seq<Row>, where: Row -> bool, to: Row -> Row)
    ensures Updated(s, rows, where, to).None? <==>
      exists i :: 0 <= i < |rows| && Admits(s, rows[i]) && where(rows[i]) && !Admits(s, to(rows[i]))
    ensures Updated(s, rows, where, to).Some? ==>
      var after := Updated(s, rows, where, to).value;
      && |after| == |rows|
      && forall i :: 0 <= i < |rows| ==>
           after[i] == if Admits(s, rows[i]) && where(rows[i]) then to(rows[i]) else rows[i]
    decreases |rows|
  {
    if rows != [] {
      UpdateReads(s, rows[1..], where, to);
      assert forall i :: 1 <= i < |rows| ==> rows[i] == rows[1..][i - 1];
      assert forall i :: 0 <= i < |rows| - 1 ==> rows[1..][i] == rows[i + 1];
    }
  }

  /** A DELETE takes the rows its WHERE matches and the policy shows, and no other. */
  lemma {:induction false} DeleteReads(s: Settings, rows: seq<Row>, where: Row -> bool, row: Row)
    ensures row in Deleted(s, rows, where) <==> row in rows && !(Admits(s, row) && where(row))
    ensures |Deleted(s, rows, where)| <= |rows|
    decreases |rows|
  {
    if rows != [] {
      DeleteReads(s, rows[1..], where, row);
      assert row in rows <==> row == rows[0] || row in rows[1..];
    }
  }

  /** What the policy shows: the tenant's own rows, or everything to an administrator. */
  lemma PolicyReads(s: Settings, row: Row)
    ensures s.admin == Some("true") ==> Admits(s, row)
    ensures s.admin != Some("true") ==> (Admits(s, row) <==> s.tenant == Some(row.tenant))
  {
  }

  /** A rejected statement leaves the transaction's changes and settings undone; a commit keeps the changes and
      drops the settings. */
  lemma EndOfTransaction(c: Conn, op: Op)
    ensures Exec(c, op).1 == PolicyViolation ==>
      Exec(c, op).0 == Conn(c.committed, c.committed, c.inherited, c.inherited)
    ensures op.Commit? ==> Exec(c, op) == (Conn(c.work, c.work, c.inherited, c.inherited), Done)
    ensures !op.Commit? ==> Exec(c, op).0.committed == c.committed
  {
  }

  // ---------------------------------------------------------------- what a scoped handler is

  /** The statements a handler runs, each with its answer. */
  function Ran(c: Conn, handler: Handler, heard: seq<Answer>, n: nat): seq<(Op, Answer)>
    decreases n
  {
    if n == 0 || handler(heard).None? then []
    else
      var op := handler(heard).value;
      var (d, answer) := Exec(c, op);
      [(op, answer)] + Ran(d, handler, heard + [answer], n - 1)
  }

  /** Nothing from j up to i ends the transaction or changes whose rows it sees. */
  ghost predicate Undisturbed(ran: seq<(Op, Answer)>, j: int, i: int)
    requires 0 <= j <= i <= |ran|
  {
    forall k :: j <= k < i ==>
      !ran[k].0.SetTenantContext? && !ran[k].0.SetPlatformAdminContext? && !ran[k].0.Commit?
      && !ran[k].1.PolicyViolation?
  }

  /** Statement i runs under a SetTenantContext(t) made before it and undisturbed since. */
  ghost predicate Covered(ran: seq<(Op, Answer)>, i: int, t: string)
    requires 0 <= i < |ran|
  {
    exists j :: 0 <= j < i && ran[j].0 == SetTenantContext(t) && Undisturbed(ran, j + 1, i)
  }

  lemma CoveredBehind(first: (Op, Answer), rest: seq<(Op, Answer)>, i: int, t: string)
    requires 0 <= i < |rest|
    ensures Covered([first] + rest, i + 1, t) <==>
      Covered(rest, i, t) || (first.0 == SetTenantContext(t) && Undisturbed(rest, 0, i))
  {
    var all := [first] + rest;
    forall j | 0 <= j <= i ensures Undisturbed(all, j + 1, i + 1) <==> Undisturbed(rest, j, i) {
      UndisturbedBehind(first, rest, j, i);
    }
    if j :| 0 <= j < i && rest[j].0 == SetTenantContext(t) && Undisturbed(rest, j + 1, i) {
      assert all[j + 1].0 == SetTenantContext(t) && Undisturbed(all, j + 2, i + 1);
    }
    if first.0 == SetTenantContext(t) && Undisturbed(rest, 0, i) {
      assert all[0] == first && Undisturbed(all, 1, i + 1);
    }
  }

  lemma UndisturbedBehind(first: (Op, Answer), rest: seq<(Op, Answer)>, j: int, i: int)
    requires 0 <= j <= i <= |rest|
    ensures Undisturbed([first] + rest, j + 1, i + 1) <==> Undisturbed(rest, j, i)
  {
    var all := [first] + rest;
    assert forall k :: j <= k < i ==> all[k + 1] == rest[k];
    assert forall k :: j + 1 <= k < i + 1 ==> all[k] == rest[k - 1];
  }

  ghost predicate Scopes(ran: seq<(Op, Answer)>, i: int, t: string, armed: bool)
    requires 0 <= i < |ran|
  {
    TouchesRows(ran[i].0) ==> Covered(ran, i, t) || (armed && Undisturbed(ran, 0, i))
  }

  ghost predicate AllScope(ran: seq<(Op, Answer)>, t: string, armed: bool) {
    forall i :: 0 <= i < |ran| ==> Scopes(ran, i, t, armed)
  }

  lemma ScopesBehind(first: (Op, Answer), rest: seq<(Op, Answer)>, i: int, t: string, armed: bool)
    requires 0 <= i < |rest|
    ensures Scopes([first] + rest, i + 1, t, armed) <==> Scopes(rest, i, t, StillArmed(first.0, first.1, t, armed))
  {
    var all := [first] + rest;
    CoveredBehind(first, rest, i, t);
    UndisturbedBehind(first, rest, 0, i);
    assert all[0] == first && all[i + 1] == rest[i];
    assert Undisturbed(all, 0, i + 1) <==> Undisturbed(all, 0, 1) && Undisturbed(all, 1, i + 1);
  }

  /** The premise of tenant separation, statement by statement: each one that touches rows is covered. */
  lemma {:induction false} ScopedReads(c: Conn, handler: Handler, heard: seq<Answer>, n: nat, t: string, armed: bool)
    ensures Scoped(c, handler, heard, n, t, armed) <==> AllScope(Ran(c, handler, heard, n), t, armed)
    decreases n
  {
    if n > 0 && handler(heard).Some? {
      var op := handler(heard).value;
      var (d, answer) := Exec(c, op);
      var first, rest := (op, answer), Ran(d, handler, heard + [answer], n - 1);
      var all, after := [first] + rest, StillArmed(op, answer, t, armed);
      ScopedReads(d, handler, heard + [answer], n - 1, t, after);
      assert Scopes(all, 0, t, armed) <==> (TouchesRows(op) ==> armed);
      forall i | 0 <= i < |rest| ensures Scopes(all, i + 1, t, armed) <==> Scopes(rest, i, t, after) {
        ScopesBehind(first, rest, i, t, armed);
      }
      Shifted(all, rest, t, armed, after);
      assert Ran(c, handler, heard, n) == all;
    }
  }

  lemma Shifted(all: seq<(Op, Answer)>, rest: seq<(Op, Answer)>, t: string, armed: bool, after: bool)
    requires |all| == |rest| + 1
    requires forall i :: 0 <= i < |rest| ==> (Scopes(all, i + 1, t, armed) <==> Scopes(rest, i, t, after))
    ensures AllScope(all, t, armed) <==> Scopes(all, 0, t, armed) && AllScope(rest, t, after)
  {
    if Scopes(all, 0, t, armed) && AllScope(rest, t, after) {
      forall i | 0 <= i < |all| ensures Scopes(all, i, t, armed) {
        if i > 0 {
          assert Scopes(all, (i - 1) + 1, t, armed) <==> Scopes(rest, i - 1, t, after);
        }
      }
    }
  }

  /** From a new session: each statement that touches rows comes after a SetTenantContext(t), with no commit, no
      rejected statement and no other context in between. */
  lemma ScopedHandlerReads(c: Conn, handler: Handler, n: nat, t: string)
    ensures var ran := Ran(c, handler, [], n);
      Scoped(c, handler, [], n, t, false) <==>
        forall i :: 0 <= i < |ran| && TouchesRows(ran[i].0) ==>
          exists j :: 0 <= j < i && ran[j].0 == SetTenantContext(t) && Undisturbed(ran, j + 1, i)
  {
    ScopedReads(c, handler, [], n, t, false);
    var ran := Ran(c, handler, [], n);
    assert forall i :: 0 <= i < |ran| ==>
      (Scopes(ran, i, t, false) <==> (TouchesRows(ran[i].0) ==> Covered(ran, i, t)));
  }

  // ---------------------------------------------------------------- what a commit forgets

  lemma {:induction false} FoundExactly(s: Settings, rows: seq<Row>, where: Row -> bool, row: Row)
    ensures row in Picked(Visible(s, rows), where) <==> row in rows && Admits(s, row) && where(row)
    decreases |rows|
  {
    if rows != [] {
      FoundExactly(s, rows[1..], where, row);
      var rest := Visible(s, rows[1..]);
      assert ([rows[0]] + rest)[1..] == rest;
    }
  }

  /** The step loop's escalation branch commits the approval and then reads the run without scoping the
      session again: it finds the run exactly when the connection's inherited settings happen to admit it. */
  lemma EscalationRereadsUnscoped(c: Conn, run: Row, approval: Row, where: Row -> bool)
    requires run in c.work && where(run) && approval.tenant == run.tenant
    ensures var scoped := Exec(c, SetTenantContext(run.tenant)).0;
            var filed := Exec(scoped, Insert(approval)).0;
            var after := Exec(filed, Commit).0;
      && Exec(scoped, Insert(approval)).1 == Done && approval in after.committed
      && (run in Exec(after, Select(where)).1.rows <==> Admits(c.inherited, run))
      && run in Exec(Exec(after, SetTenantContext(run.tenant)).0, Select(where)).1.rows
  {
    var after := Exec(Exec(Exec(c, SetTenantContext(run.tenant)).0, Insert(approval)).0, Commit).0;
    FoundExactly(after.local, after.work, where, run);
    FoundExactly(Settings(Some(run.tenant), Some("false")), after.work, where, run);
  }

  /** On a connection that inherited nothing, the run is lost. */
  lemma FreshConnectionLosesTheRun(run: Row, approval: Row)
    requires approval.tenant == run.tenant && approval.table != run.table
    ensures var c := Opened([run], Settings(None, None));
            var filed := Exec(Exec(c, SetTenantContext(run.tenant)).0, Insert(approval)).0;
      Exec(Exec(filed, Commit).0, Select((row: Row) => row.id == run.id)).1 == Rows([])
  {
    var scoped := Exec(Opened([run], Settings(None, None)), SetTenantContext(run.tenant)).0;
    var after := Exec(Exec(scoped, Insert(approval)).0, Commit).0;
    assert after.work == [run, approval] && after.local == Settings(None, None);
    NothingVisible(after.local, after.work);
  }

  lemma {:induction false} NothingVisible(s: Settings, rows: seq<Row>)
    requires s == Settings(None, None)
    ensures Visible(s, rows) == []
    decreases |rows|
  {
    if rows != [] {
      NothingVisible(s, rows[1..]);
    }
  }

  /** assign_permission_to_role looks its role up after the catalog seeding, which commits only when a required
      code was missing: the role is found exactly when none was or the inherited settings admit it. */
  lemma RoleLookupAfterSeeding(c: Conn, role: Row, where: Row -> bool, required: set<string>, catalog: set<string>)
    requires role in c.work && where(role)
    ensures var scoped := Exec(c, SetTenantContext(role.tenant)).0;
            var after := if required <= catalog then scoped else Exec(scoped, Commit).0;
      role in Exec(after, Select(where)).1.rows <==> required <= catalog || Admits(c.inherited, role)
  {
    var scoped := Exec(c, SetTenantContext(role.tenant)).0;
    var after := if required <= catalog then scoped else Exec(scoped, Commit).0;
    FoundExactly(after.local, after.work, where, role);
  }
}
