/** The workflow engine as a state machine over its commit points. A process may die between any two
    events (`Crash`); handlers of different runs, decisions and grants interleave freely. A run has at
    most one driver (request handler or Celery worker) at a time, which is an assumption: the code takes no lock.
    (app/workflows/executor.py, app/workflows/router.py, app/approvals/router.py, app/approvals/service.py) */
module Engine {
  import opened Common
  import opened Rbac
  import opened Workflow

  /** The user a handler loaded, with the grant tables as they were then. */
  datatype Caller = Caller(id: UserId, seen: Directory)

  /** Where the process driving a run stands between two commits. */
  datatype Driver =
    | NoDriver
    | AtStep(caller: Caller, index: nat, previous: string)
    | Answered(caller: Caller, asked: Exchange)
    | ApprovalCommitted(caller: Caller, asked: Exchange, approval: ApprovalId)
    | AuditOwed(caller: Caller, action: AuditAction)
    | ResumeChecked(caller: Caller, index: nat, previous: string)

  /** History the tables do not hold: the calls made, the approval behind each row (if it paused), the
      approvals filed, who drove each row, how often the run was resumed and how often a driver died. */
  datatype Notes = Notes(calls: seq<Exchange>, gates: seq<Option<ApprovalId>>, filed: seq<ApprovalId>,
                         authors: seq<Caller>, resumes: nat, crashes: nat)

  /** One run: its table rows (run, step rows, audit rows naming it), its driver, its history. */
  datatype Life = Life(run: Run, rows: seq<StepRow>, audits: seq<AuditAction>, driver: Driver, notes: Notes)

  datatype World = World(directory: Directory, lives: map<RunId, Life>, approvals: map<ApprovalId, Approval>)

  datatype Event =
    | StartRun(run: RunId, user: UserId, slug: string, input: string)
    | AskAgent(run: RunId)
    | CommitRow(run: RunId)
    | CommitFailure(run: RunId)
    | CommitApproval(run: RunId, approval: ApprovalId)
    | CommitEscalation(run: RunId)
    | CommitCompletion(run: RunId)
    | CommitAudit(run: RunId)
    | CheckResume(run: RunId, user: UserId)
    | CommitResume(run: RunId)
    | Crash(run: RunId)
    | Decide(approval: ApprovalId, user: UserId, accept: bool)
    | FileApproval(approval: ApprovalId, tenant: string, department: string, requester: string)
    | Grow(directory: Directory)

  predicate IsRunEvent(e: Event) {
    !e.Decide? && !e.FileApproval? && !e.Grow?
  }

  function Genesis(directory: Directory): World {
    World(directory, map[], map[])
  }

  predicate CanDriveFrom(cfg: Config, d: Directory, user: UserId, steps: seq<StepDef>, start: nat) {
    forall i :: start <= i < |steps| ==>
      steps[i].department in cfg.agents && Permitted(d, user, PermissionFor(cfg, steps[i].department))
  }

  function StepsOf(cfg: Config, l: Life): seq<StepDef> {
    if l.run.slug in cfg.workflows then cfg.workflows[l.run.slug] else []
  }

  predicate IsApproved(approvals: map<ApprovalId, Approval>, a: ApprovalId) {
    a in approvals && approvals[a].status == Approved
  }

  predicate CanResume(cfg: Config, w: World, l: Life, user: UserId) {
    && l.run.status == Escalated
    && user in w.directory.users && w.directory.users[user].tenant == l.run.tenant
    && l.run.pending.Some? && IsApproved(w.approvals, l.run.pending.value)
    && CanDriveFrom(cfg, w.directory, user, StepsOf(cfg, l), |l.rows|)
  }

  predicate CanStart(cfg: Config, w: World, user: UserId, slug: string, input: string) {
    && user in w.directory.users && slug in cfg.workflows && input != ""
    && CanDriveFrom(cfg, w.directory, user, cfg.workflows[slug], 0)
  }

  /** The guard of each step of a run's own driver. */
  predicate CanLife(cfg: Config, w: World, l: Life, e: Event) {
    match e
    case AskAgent(_) => l.driver.AtStep? && l.driver.index < |StepsOf(cfg, l)|
    case CommitRow(_) => l.driver.Answered? && l.driver.asked.answer.Reply?
                         && PauseReason(cfg, l.driver.asked.department, l.driver.asked.answer.text).None?
    case CommitFailure(_) => l.driver.Answered? && l.driver.asked.answer.ProvidersFailed?
    case CommitApproval(_, a) => l.driver.Answered? && l.driver.asked.answer.Reply? && a !in w.approvals
                                 && PauseReason(cfg, l.driver.asked.department, l.driver.asked.answer.text).Some?
    case CommitEscalation(_) => l.driver.ApprovalCommitted?
    case CommitCompletion(_) => l.driver.AtStep? && l.driver.index >= |StepsOf(cfg, l)|
    case CommitAudit(_) => l.driver.AuditOwed?
    case CheckResume(_, u) => l.driver.NoDriver? && CanResume(cfg, w, l, u)
    case CommitResume(_) => l.driver.ResumeChecked?
    case Crash(_) => !l.driver.NoDriver?
    case _ => false
  }

  predicate Enabled(cfg: Config, w: World, e: Event) {
    match e
    case StartRun(r, u, slug, input) => r !in w.lives && CanStart(cfg, w, u, slug, input)
    case Decide(a, u, _) => a in w.approvals && w.approvals[a].status == Pending && u in w.directory.users
                            && w.directory.users[u].tenant == w.approvals[a].tenant && MayDecide(w.directory.users[u])
    case FileApproval(a, _, _, _) => a !in w.approvals
    case Grow(_) => true
    case _ => e.run in w.lives && CanLife(cfg, w, w.lives[e.run], e)
  }

  function NewLife(w: World, u: UserId, slug: string, input: string): Life
    requires u in w.directory.users
  {
    Life(Run(w.directory.users[u].tenant, slug, u, Running, input, None, None), [], [],
         AtStep(Caller(u, w.directory), 0, ""), Notes([], [], [], [], 0, 0))
  }

  function PausedApproval(l: Life): Approval
    requires l.driver.Answered?
  {
    Approval(l.run.tenant, l.driver.asked.department, "agent:" + l.driver.asked.department, Pending, None)
  }

  /** The row commit common to every outcome of a step. */
  function Recorded(cfg: Config, l: Life, x: Exchange, gate: Option<ApprovalId>, c: Caller): Life {
    l.(rows := l.rows + [RowFor(cfg, x)],
       notes := l.notes.(gates := l.notes.gates + [gate], authors := l.notes.authors + [c]))
  }

  function LifeAfter(cfg: Config, w: World, l: Life, e: Event): Life
    requires CanLife(cfg, w, l, e)
  {
    match e
    case AskAgent(r) =>
      var x := Ask(cfg, r, StepsOf(cfg, l), l.run.input, l.driver.index, l.driver.previous);
      l.(driver := Answered(l.driver.caller, x), notes := l.notes.(calls := l.notes.calls + [x]))
    case CommitRow(_) =>
      var x := l.driver.asked;
      Recorded(cfg, l, x, None, l.driver.caller).(driver := AtStep(l.driver.caller, x.index + 1, x.answer.text))
    case CommitFailure(_) =>
      var x := l.driver.asked;
      Recorded(cfg, l, x, None, l.driver.caller).(
        run := l.run.(status := Failed, error := Some(FailureText(x.index, x.department, x.answer.error))),
        driver := AuditOwed(l.driver.caller, WorkflowFailed))
    case CommitApproval(_, a) =>
      l.(driver := ApprovalCommitted(l.driver.caller, l.driver.asked, a),
         notes := l.notes.(filed := l.notes.filed + [a]))
    case CommitEscalation(_) =>
      var a := l.driver.approval;
      Recorded(cfg, l, l.driver.asked, Some(a), l.driver.caller).(
        run := l.run.(status := Escalated, pending := Some(a)),
        driver := AuditOwed(l.driver.caller, WorkflowEscalated))
    case CommitCompletion(_) =>
      l.(run := l.run.(status := Completed, pending := None), driver := AuditOwed(l.driver.caller, WorkflowCompleted))
    case CommitAudit(_) =>
      l.(audits := l.audits + [l.driver.action], driver := NoDriver)
    case CheckResume(_, u) =>
      l.(driver := ResumeChecked(Caller(u, w.directory), |l.rows|, LastOutput(l.rows)))
    case CommitResume(_) =>
      l.(run := l.run.(status := Running), driver := AtStep(l.driver.caller, l.driver.index, l.driver.previous),
         notes := l.notes.(resumes := l.notes.resumes + 1))
    case Crash(_) =>
      l.(driver := NoDriver, notes := l.notes.(crashes := l.notes.crashes + 1))
  }

  function Decided(a: Approval, u: UserId, accept: bool): Approval {
    a.(status := if accept then Approved else Rejected, decidedBy := Some(u))
  }

  /** `Grow` keeps the directory it is given only if nothing was taken away. */
  ghost function Apply(cfg: Config, w: World, e: Event): World
    requires Enabled(cfg, w, e)
  {
    match e
    case StartRun(r, u, slug, input) => w.(lives := w.lives[r := NewLife(w, u, slug, input)])
    case Decide(a, u, accept) => w.(approvals := w.approvals[a := Decided(w.approvals[a], u, accept)])
    case FileApproval(a, t, d, requester) => w.(approvals := w.approvals[a := Approval(t, d, requester, Pending, None)])
    case Grow(d) => if Grows(w.directory, d) then w.(directory := d) else w
    case CommitApproval(r, a) =>
      World(w.directory, w.lives[r := LifeAfter(cfg, w, w.lives[r], e)],
            w.approvals[a := PausedApproval(w.lives[r])])
    case _ => w.(lives := w.lives[e.run := LifeAfter(cfg, w, w.lives[e.run], e)])
  }

  /** The world after a history of events, if every one of them was possible in turn. */
  ghost function Exec(cfg: Config, w: World, es: seq<Event>): Option<World>
    decreases |es|
  {
    if es == [] then Some(w)
    else
      match Exec(cfg, w, es[..|es| - 1])
      case None => None
      case Some(v) => if Enabled(cfg, v, es[|es| - 1]) then Some(Apply(cfg, v, es[|es| - 1])) else None
  }

  // ---------------------------------------------------------------- the invariant

  /** The run is somewhere along the reference loop: calls and rows are prefixes of its trace, the
      rows are the records of the calls, and the driver stands right behind the last row. */
  ghost predicate OnTrack(cfg: Config, r: RunId, l: Life) {
    && l.run.slug in cfg.workflows
    && var trace := TraceOf(cfg, r, l.run);
       var k := |l.rows|;
       && k <= |trace|
       && (forall i :: 0 <= i < k ==> l.rows[i] == RowFor(cfg, trace[i]))
       && k <= |l.notes.calls| <= k + 1 && |l.notes.calls| <= |trace|
       && l.notes.calls == trace[..|l.notes.calls|]
       && (l.run.status == Failed <==> k > 0 && trace[k - 1].answer.ProvidersFailed?)
       && (l.run.status == Completed ==> k == |cfg.workflows[l.run.slug]|)
       && (l.run.status == Escalated ==> k > 0 && l.rows[k - 1].escalated)
       && (l.run.status != Running ==> |l.notes.calls| == k)
       && DriverOnTrack(cfg, trace, l)
  }

  function StatusBehind(action: AuditAction): RunStatus {
    match action
    case WorkflowFailed => Failed
    case WorkflowEscalated => Escalated
    case WorkflowCompleted => Completed
  }

  ghost predicate DriverOnTrack(cfg: Config, trace: seq<Exchange>, l: Life)
    requires |l.rows| <= |trace|
  {
    var k := |l.rows|;
    match l.driver
    case NoDriver => true
    case AtStep(_, i, prev) => l.run.status == Running && i == k && prev == Handed(trace, k) && |l.notes.calls| == k
    case Answered(_, x) => l.run.status == Running && k < |trace| && x == trace[k] && |l.notes.calls| == k + 1
    case ApprovalCommitted(_, x, _) =>
      && l.run.status == Running && k < |trace| && x == trace[k] && |l.notes.calls| == k + 1
      && RowFor(cfg, x).escalated
    case AuditOwed(_, action) =>
      l.run.status == StatusBehind(action)
    case ResumeChecked(_, i, prev) => l.run.status == Escalated && i == k && prev == Handed(trace, k)
  }

  /** Row i's approval no longer has to hold the run back. */
  predicate Passed(l: Life, i: nat) {
    i < |l.rows| - 1 || l.run.status != Escalated || l.driver.ResumeChecked?
  }

  ghost predicate Filed(approvals: map<ApprovalId, Approval>, l: Life, a: ApprovalId) {
    a in approvals && approvals[a].tenant == l.run.tenant
  }

  /** Every pause has an approval of the run's own tenant, and the run is past it only if approved. */
  ghost predicate Gated(approvals: map<ApprovalId, Approval>, l: Life) {
    && |l.notes.gates| == |l.rows|
    && (forall i :: 0 <= i < |l.rows| ==> (l.rows[i].escalated <==> l.notes.gates[i].Some?))
    && (forall i :: 0 <= i < |l.rows| && l.notes.gates[i].Some? ==>
          Filed(approvals, l, l.notes.gates[i].value)
          && (Passed(l, i) ==> IsApproved(approvals, l.notes.gates[i].value)))
    && (l.run.status == Escalated ==>
      |l.rows| > 0 && l.run.pending.Some? && l.run.pending == l.notes.gates[|l.rows| - 1])
    && (l.run.status != Escalated && l.run.pending.Some? ==> IsApproved(approvals, l.run.pending.value))
    && (l.driver.ApprovalCommitted? ==> Filed(approvals, l, l.driver.approval))
  }

  /** Each pause has an approval of its own, filed by this run. */
  ghost predicate OwnApprovals(approvals: map<ApprovalId, Approval>, l: Life) {
    && (forall a :: a in l.notes.filed ==> a in approvals)
    && (forall i :: 0 <= i < |l.notes.gates| && l.notes.gates[i].Some? ==> l.notes.gates[i].value in l.notes.filed)
    && (forall i, j :: 0 <= i < j < |l.notes.gates| && l.notes.gates[i].Some? ==> l.notes.gates[i] != l.notes.gates[j])
    && (l.driver.ApprovalCommitted? ==>
          l.driver.approval in l.notes.filed && Some(l.driver.approval) !in l.notes.gates)
  }

  function Paused(rows: seq<StepRow>): nat {
    if rows == [] then 0 else Paused(rows[..|rows| - 1]) + (if rows[|rows| - 1].escalated then 1 else 0)
  }

  function Times(action: AuditAction, audits: seq<AuditAction>): nat {
    if audits == [] then 0
    else Times(action, audits[..|audits| - 1]) + (if audits[|audits| - 1] == action then 1 else 0)
  }

  function Bit(b: bool): nat {
    if b then 1 else 0
  }

  predicate Owes(l: Life, action: AuditAction) {
    l.driver.AuditOwed? && l.driver.action == action
  }

  /** Approvals, pauses, resumes and audit rows keep step with each other. */
  ghost predicate Balanced(l: Life) {
    var paused := Paused(l.rows);
    && paused <= |l.notes.filed| <= paused + 1
    && (l.driver.ApprovalCommitted? ==> |l.notes.filed| == paused + 1)
    && (|l.notes.filed| == paused + 1 ==>
          l.run.status == Running && (l.driver.ApprovalCommitted? || (l.driver.NoDriver? && l.notes.crashes > 0)))
    && l.notes.resumes + Bit(l.run.status == Escalated) == paused
    && (l.driver.NoDriver? && l.run.status == Running ==> l.notes.crashes > 0)
    && AuditBalanced(l)
  }

  ghost predicate AuditBalanced(l: Life) {
    && Times(WorkflowEscalated, l.audits) + Bit(Owes(l, WorkflowEscalated)) <= Paused(l.rows)
    && Times(WorkflowFailed, l.audits) + Bit(Owes(l, WorkflowFailed)) <= Bit(l.run.status == Failed)
    && Times(WorkflowCompleted, l.audits) + Bit(Owes(l, WorkflowCompleted)) <= Bit(l.run.status == Completed)
    && (l.notes.crashes == 0 ==>
          && Times(WorkflowEscalated, l.audits) + Bit(Owes(l, WorkflowEscalated)) == Paused(l.rows)
          && Times(WorkflowFailed, l.audits) + Bit(Owes(l, WorkflowFailed)) == Bit(l.run.status == Failed)
          && Times(WorkflowCompleted, l.audits) + Bit(Owes(l, WorkflowCompleted)) == Bit(l.run.status == Completed))
  }

  /** The caller was permitted when his handler loaded him, and grants have only grown since. */
  ghost predicate Vouched(cfg: Config, d: Directory, c: Caller, department: string) {
    && Grows(c.seen, d)
    && Permitted(c.seen, c.id, PermissionFor(cfg, department))
    && Permitted(d, c.id, PermissionFor(cfg, department))
  }

  ghost predicate Authorised(cfg: Config, d: Directory, l: Life) {
    && |l.notes.authors| == |l.rows|
    && (forall i :: 0 <= i < |l.rows| ==> Vouched(cfg, d, l.notes.authors[i], l.rows[i].department))
    && (l.driver.AtStep? || l.driver.Answered? || l.driver.ApprovalCommitted? || l.driver.ResumeChecked? ==>
          forall i :: |l.rows| <= i < |StepsOf(cfg, l)| ==>
            Vouched(cfg, d, l.driver.caller, StepsOf(cfg, l)[i].department))
  }

  /** Only someone entitled to decide, in the approval's own tenant, has decided it. */
  ghost predicate SoundApproval(d: Directory, a: Approval) {
    match a.decidedBy
    case None => a.status == Pending
    case Some(u) => a.status != Pending && u in d.users && d.users[u].tenant == a.tenant && MayDecide(d.users[u])
  }

  ghost predicate RunInv(cfg: Config, w: World, r: RunId)
    requires r in w.lives
  {
    && OnTrack(cfg, r, w.lives[r])
    && Gated(w.approvals, w.lives[r])
    && OwnApprovals(w.approvals, w.lives[r])
    && Balanced(w.lives[r])
    && Authorised(cfg, w.directory, w.lives[r])
  }

  /** No approval was filed by two runs. */
  ghost predicate FiledSeparately(w: World) {
    forall r, s, a :: r in w.lives && s in w.lives && a in w.lives[r].notes.filed && a in w.lives[s].notes.filed ==>
      r == s
  }

  ghost predicate Inv(cfg: Config, w: World) {
    && (forall r :: r in w.lives ==> RunInv(cfg, w, r))
    && (forall a :: a in w.approvals ==> SoundApproval(w.directory, w.approvals[a]))
    && FiledSeparately(w)
  }

  // ---------------------------------------------------------------- each event keeps it

  lemma StepsMatch(cfg: Config, r: RunId, l: Life)
    requires OnTrack(cfg, r, l)
    ensures StepsOf(cfg, l) == cfg.workflows[l.run.slug]
    ensures Chained(cfg, r, StepsOf(cfg, l), l.run.input, TraceOf(cfg, r, l.run))
  {
    TraceIsChained(cfg, r, l.run);
  }

  lemma LastOutputIsHanded(cfg: Config, r: RunId, l: Life)
    requires OnTrack(cfg, r, l) && l.run.status != Failed
    ensures LastOutput(l.rows) == Handed(TraceOf(cfg, r, l.run), |l.rows|)
  {
  }

  lemma AskStaysOnTrack(cfg: Config, w: World, l: Life, e: Event)
    requires e.AskAgent? && CanLife(cfg, w, l, e) && OnTrack(cfg, e.run, l)
    ensures OnTrack(cfg, e.run, LifeAfter(cfg, w, l, e))
  {
    StepsMatch(cfg, e.run, l);
    var trace := TraceOf(cfg, e.run, l.run);
    var k := |l.rows|;
    assert k > 0 ==> trace[k - 1].answer.Reply?;
    assert k < |trace|;
    assert Linked(cfg, e.run, StepsOf(cfg, l), l.run.input, trace, k);
    assert trace[..k + 1] == trace[..k] + [trace[k]];
  }

  lemma RecordStaysOnTrack(cfg: Config, w: World, l: Life, e: Event)
    requires e.CommitRow? || e.CommitFailure? || e.CommitEscalation?
    requires CanLife(cfg, w, l, e) && OnTrack(cfg, e.run, l)
    ensures OnTrack(cfg, e.run, LifeAfter(cfg, w, l, e))
  {
    RowOnTrack(cfg, e.run, l, LifeAfter(cfg, w, l, e), l.driver.asked);
  }

  /** The row of the call just made, with the status and driver that go with its answer. */
  lemma RowOnTrack(cfg: Config, r: RunId, l: Life, m: Life, x: Exchange)
    requires OnTrack(cfg, r, l) && (l.driver.Answered? || l.driver.ApprovalCommitted?) && x == l.driver.asked
    requires m.rows == l.rows + [RowFor(cfg, x)] && m.notes.calls == l.notes.calls
    requires m.run.slug == l.run.slug && m.run.input == l.run.input
    requires x.answer.ProvidersFailed? ==> m.run.status == Failed && Owes(m, WorkflowFailed)
    requires RowFor(cfg, x).escalated ==> m.run.status == Escalated && Owes(m, WorkflowEscalated)
    requires x.answer.Reply? && !RowFor(cfg, x).escalated ==>
      m.run.status == Running && m.driver.AtStep? && m.driver.index == x.index + 1 && m.driver.previous == x.answer.text
    ensures OnTrack(cfg, r, m)
  {
    StepsMatch(cfg, r, l);
    var trace, k := TraceOf(cfg, r, l.run), |l.rows|;
    assert TraceOf(cfg, r, m.run) == trace;
    assert Linked(cfg, r, StepsOf(cfg, l), l.run.input, trace, k);
    assert trace[k].index == k;
  }

  lemma StatusStaysOnTrack(cfg: Config, w: World, l: Life, e: Event)
    requires e.CommitCompletion? || e.CommitResume?
    requires CanLife(cfg, w, l, e) && OnTrack(cfg, e.run, l)
    ensures OnTrack(cfg, e.run, LifeAfter(cfg, w, l, e))
  {
    StepsMatch(cfg, e.run, l);
    assert TraceOf(cfg, e.run, LifeAfter(cfg, w, l, e).run) == TraceOf(cfg, e.run, l.run);
  }

  lemma DriverStaysOnTrack(cfg: Config, w: World, l: Life, e: Event)
    requires e.CommitApproval? || e.CommitAudit? || e.CheckResume? || e.Crash?
    requires CanLife(cfg, w, l, e) && OnTrack(cfg, e.run, l)
    ensures OnTrack(cfg, e.run, LifeAfter(cfg, w, l, e))
  {
    var m := LifeAfter(cfg, w, l, e);
    assert m.run == l.run && m.rows == l.rows && m.notes.calls == l.notes.calls;
    if e.CheckResume? {
      LastOutputIsHanded(cfg, e.run, l);
    }
  }

  lemma StaysOnTrack(cfg: Config, w: World, l: Life, e: Event)
    requires IsRunEvent(e) && CanLife(cfg, w, l, e) && OnTrack(cfg, e.run, l)
    ensures OnTrack(cfg, e.run, LifeAfter(cfg, w, l, e))
  {
    if e.AskAgent? {
      AskStaysOnTrack(cfg, w, l, e);
    } else if e.CommitRow? || e.CommitFailure? || e.CommitEscalation? {
      RecordStaysOnTrack(cfg, w, l, e);
    } else if e.CommitCompletion? || e.CommitResume? {
      StatusStaysOnTrack(cfg, w, l, e);
    } else {
      DriverStaysOnTrack(cfg, w, l, e);
    }
  }

  lemma PausedGrows(rows: seq<StepRow>, row: StepRow)
    ensures Paused(rows + [row]) == Paused(rows) + Bit(row.escalated)
  {
    assert (rows + [row])[..|rows|] == rows;
  }

  lemma TimesGrows(audits: seq<AuditAction>, action: AuditAction, counted: AuditAction)
    ensures Times(counted, audits + [action]) == Times(counted, audits) + Bit(action == counted)
  {
    assert (audits + [action])[..|audits|] == audits;
  }

  lemma RecordStaysGated(cfg: Config, w: World, l: Life, e: Event)
    requires e.CommitRow? || e.CommitFailure? || e.CommitEscalation?
    requires CanLife(cfg, w, l, e) && OnTrack(cfg, e.run, l) && Gated(w.approvals, l)
    ensures Gated(w.approvals, LifeAfter(cfg, w, l, e))
  {
    var m := LifeAfter(cfg, w, l, e);
    var gate := if e.CommitEscalation? then Some(l.driver.approval) else None;
    RowGated(w.approvals, l, m, RowFor(cfg, l.driver.asked), gate);
  }

  /** One more row and the approval behind it, if it pauses. */
  lemma RowGated(approvals: map<ApprovalId, Approval>, l: Life, m: Life, row: StepRow, gate: Option<ApprovalId>)
    requires Gated(approvals, l) && l.run.status == Running && m.run.tenant == l.run.tenant
    requires m.rows == l.rows + [row] && m.notes.gates == l.notes.gates + [gate] && (row.escalated <==> gate.Some?)
    requires gate.Some? ==> Filed(approvals, l, gate.value) && m.run.status == Escalated && m.run.pending == gate
    requires gate.None? ==> m.run.status != Escalated && m.run.pending == l.run.pending
    requires !m.driver.ApprovalCommitted? && !m.driver.ResumeChecked?
    ensures Gated(approvals, m)
  {
    var k := |l.rows|;
    forall i | 0 <= i < k ensures m.rows[i] == l.rows[i] && m.notes.gates[i] == l.notes.gates[i] && Passed(l, i) {
    }
  }

  lemma FilingStaysGated(approvals: map<ApprovalId, Approval>, l: Life, m: Life, a: ApprovalId, filed: Approval)
    requires Gated(approvals, l) && a !in approvals && filed.tenant == l.run.tenant
    requires m.run == l.run && m.rows == l.rows && m.notes.gates == l.notes.gates
    requires l.run.status == Running && !l.driver.ResumeChecked?
    requires !m.driver.ResumeChecked? && (m.driver.ApprovalCommitted? ==> m.driver.approval == a)
    ensures Gated(approvals[a := filed], m)
  {
    forall b | b in approvals ensures (IsApproved(approvals, b) <==> IsApproved(approvals[a := filed], b)) {
    }
  }

  lemma QuietStaysGated(cfg: Config, w: World, l: Life, e: Event)
    requires e.AskAgent? || e.CommitCompletion? || e.CommitAudit? || e.CheckResume? || e.CommitResume? || e.Crash?
    requires CanLife(cfg, w, l, e) && OnTrack(cfg, e.run, l) && Gated(w.approvals, l)
    ensures Gated(w.approvals, LifeAfter(cfg, w, l, e))
  {
    var m := LifeAfter(cfg, w, l, e);
    assert m.rows == l.rows && m.notes.gates == l.notes.gates && m.run.tenant == l.run.tenant;
    if e.CheckResume? {
      GateOpens(w.approvals, l, m);
    } else {
      GatesKept(w.approvals, l, m);
    }
  }

  /** Passing the resume check: the last row's approval is the pending one, and approved. */
  lemma GateOpens(approvals: map<ApprovalId, Approval>, l: Life, m: Life)
    requires Gated(approvals, l) && l.run.status == Escalated && m.run == l.run
    requires IsApproved(approvals, l.run.pending.value)
    requires m.rows == l.rows && m.notes.gates == l.notes.gates && m.driver.ResumeChecked?
    ensures Gated(approvals, m)
  {
    assert l.notes.gates[|l.rows| - 1] == l.run.pending;
  }

  /** Events that pass no further gate. */
  lemma GatesKept(approvals: map<ApprovalId, Approval>, l: Life, m: Life)
    requires Gated(approvals, l) && m.rows == l.rows && m.notes.gates == l.notes.gates && m.run.tenant == l.run.tenant
    requires !m.driver.ResumeChecked? && !m.driver.ApprovalCommitted?
    requires m.run == l.run
      || (l.run.status == Running && m.run.status != Escalated && m.run.pending.None?)
      || (l.driver.ResumeChecked? && m.run.status == Running && m.run.pending == l.run.pending)
    requires l.driver.ResumeChecked? ==> l.run.status == Escalated
    ensures Gated(approvals, m)
  {
    forall i | 0 <= i < |m.rows| && Passed(m, i) ensures Passed(l, i) {
    }
  }

  lemma StaysGated(cfg: Config, w: World, l: Life, e: Event)
    requires IsRunEvent(e) && CanLife(cfg, w, l, e) && OnTrack(cfg, e.run, l) && Gated(w.approvals, l)
    ensures e.CommitApproval? ==> l.driver.Answered?
    ensures Gated(if e.CommitApproval? then w.approvals[e.approval := PausedApproval(l)] else w.approvals,
                  LifeAfter(cfg, w, l, e))
  {
    if e.CommitRow? || e.CommitFailure? || e.CommitEscalation? {
      RecordStaysGated(cfg, w, l, e);
    } else if e.CommitApproval? {
      FilingStaysGated(w.approvals, l, LifeAfter(cfg, w, l, e), e.approval, PausedApproval(l));
    } else {
      QuietStaysGated(cfg, w, l, e);
    }
  }

  lemma StaysOwn(cfg: Config, w: World, l: Life, e: Event)
    requires IsRunEvent(e) && CanLife(cfg, w, l, e) && OwnApprovals(w.approvals, l)
    ensures e.CommitApproval? ==> l.driver.Answered?
    ensures OwnApprovals(if e.CommitApproval? then w.approvals[e.approval := PausedApproval(l)] else w.approvals,
                         LifeAfter(cfg, w, l, e))
  {
    var m := LifeAfter(cfg, w, l, e);
    if e.CommitApproval? {
      assert Some(e.approval) !in l.notes.gates;
      assert m.notes.gates == l.notes.gates && m.notes.filed == l.notes.filed + [e.approval];
    } else {
      assert m.notes.filed == l.notes.filed;
      assert e.CommitEscalation? ==> m.notes.gates == l.notes.gates + [Some(l.driver.approval)];
    }
  }

  lemma RecordKeepsBalance(cfg: Config, w: World, l: Life, e: Event)
    requires e.CommitRow? || e.CommitFailure? || e.CommitEscalation?
    requires CanLife(cfg, w, l, e) && OnTrack(cfg, e.run, l) && Balanced(l)
    ensures Balanced(LifeAfter(cfg, w, l, e))
  {
    RowBalanced(l, LifeAfter(cfg, w, l, e), RowFor(cfg, l.driver.asked));
  }

  /** A new row pauses exactly when it uses up the approval filed for it. */
  lemma RowBalanced(l: Life, m: Life, row: StepRow)
    requires Balanced(l) && l.run.status == Running && (l.driver.Answered? || l.driver.ApprovalCommitted?)
    requires m.rows == l.rows + [row] && m.audits == l.audits
    requires m.notes.filed == l.notes.filed && m.notes.resumes == l.notes.resumes && m.notes.crashes == l.notes.crashes
    requires row.escalated <==> l.driver.ApprovalCommitted?
    requires (row.escalated <==> m.run.status == Escalated) && m.run.status != Completed
    requires if row.escalated then Owes(m, WorkflowEscalated)
             else if m.run.status == Failed then Owes(m, WorkflowFailed) else m.driver.AtStep?
    ensures Balanced(m)
  {
    PausedGrows(l.rows, row);
  }

  lemma AuditKeepsBalance(cfg: Config, w: World, l: Life, e: Event)
    requires e.CommitAudit? && CanLife(cfg, w, l, e) && OnTrack(cfg, e.run, l) && Balanced(l)
    ensures Balanced(LifeAfter(cfg, w, l, e))
  {
    TimesGrows(l.audits, l.driver.action, WorkflowEscalated);
    TimesGrows(l.audits, l.driver.action, WorkflowFailed);
    TimesGrows(l.audits, l.driver.action, WorkflowCompleted);
    assert LifeAfter(cfg, w, l, e).audits == l.audits + [l.driver.action];
  }

  lemma StaysBalanced(cfg: Config, w: World, l: Life, e: Event)
    requires IsRunEvent(e) && CanLife(cfg, w, l, e) && OnTrack(cfg, e.run, l) && Balanced(l)
    ensures Balanced(LifeAfter(cfg, w, l, e))
  {
    if e.CommitRow? || e.CommitFailure? || e.CommitEscalation? {
      RecordKeepsBalance(cfg, w, l, e);
    } else if e.CommitAudit? {
      AuditKeepsBalance(cfg, w, l, e);
    } else {
      QuietKeepsBalance(cfg, w, l, e);
    }
  }

  lemma QuietKeepsBalance(cfg: Config, w: World, l: Life, e: Event)
    requires e.AskAgent? || e.CommitApproval? || e.CommitCompletion? || e.CheckResume? || e.CommitResume? || e.Crash?
    requires CanLife(cfg, w, l, e) && OnTrack(cfg, e.run, l) && Balanced(l)
    ensures Balanced(LifeAfter(cfg, w, l, e))
  {
    var m := LifeAfter(cfg, w, l, e);
    assert m.rows == l.rows && m.audits == l.audits;
    if e.CommitApproval? {
      FilingBalanced(l, m);
    } else if e.CommitResume? {
      ResumeBalanced(l, m);
    } else if e.Crash? {
      CrashBalanced(l, m);
    } else {
      assert m.notes.filed == l.notes.filed && m.notes.resumes == l.notes.resumes && m.notes.crashes == l.notes.crashes;
    }
  }

  lemma FilingBalanced(l: Life, m: Life)
    requires Balanced(l) && l.driver.Answered? && m.driver.ApprovalCommitted?
    requires m.run == l.run && m.rows == l.rows && m.audits == l.audits && l.run.status == Running
    requires |m.notes.filed| == |l.notes.filed| + 1
    requires m.notes.resumes == l.notes.resumes && m.notes.crashes == l.notes.crashes
    ensures Balanced(m)
  {
  }

  lemma ResumeBalanced(l: Life, m: Life)
    requires Balanced(l) && l.run.status == Escalated && m.run.status == Running && m.driver.AtStep?
    requires m.rows == l.rows && m.audits == l.audits && m.notes.filed == l.notes.filed
    requires l.driver.ResumeChecked?
    requires m.notes.resumes == l.notes.resumes + 1 && m.notes.crashes == l.notes.crashes
    ensures Balanced(m)
  {
  }

  lemma CrashBalanced(l: Life, m: Life)
    requires Balanced(l) && m.run == l.run && m.rows == l.rows && m.audits == l.audits && m.driver.NoDriver?
    requires m.notes.filed == l.notes.filed && m.notes.resumes == l.notes.resumes
    requires m.notes.crashes == l.notes.crashes + 1
    ensures Balanced(m)
  {
  }

  lemma RecordKeepsAuthority(cfg: Config, w: World, l: Life, e: Event)
    requires e.CommitRow? || e.CommitFailure? || e.CommitEscalation?
    requires CanLife(cfg, w, l, e) && OnTrack(cfg, e.run, l) && Authorised(cfg, w.directory, l)
    ensures Authorised(cfg, w.directory, LifeAfter(cfg, w, l, e))
  {
    AskedIsNext(cfg, e.run, l);
    RowAuthorised(cfg, w.directory, l, LifeAfter(cfg, w, l, e), RowFor(cfg, l.driver.asked));
  }

  lemma AskedIsNext(cfg: Config, r: RunId, l: Life)
    requires OnTrack(cfg, r, l) && (l.driver.Answered? || l.driver.ApprovalCommitted?)
    ensures |l.rows| < |StepsOf(cfg, l)| && l.driver.asked.department == StepsOf(cfg, l)[|l.rows|].department
  {
    StepsMatch(cfg, r, l);
    assert Linked(cfg, r, StepsOf(cfg, l), l.run.input, TraceOf(cfg, r, l.run), |l.rows|);
  }

  /** One more row, of the next step, by the driver who may drive it. */
  lemma RowAuthorised(cfg: Config, d: Directory, l: Life, m: Life, row: StepRow)
    requires Authorised(cfg, d, l) && (l.driver.Answered? || l.driver.ApprovalCommitted?)
    requires |l.rows| < |StepsOf(cfg, l)| && row.department == StepsOf(cfg, l)[|l.rows|].department
    requires m.rows == l.rows + [row] && m.notes.authors == l.notes.authors + [l.driver.caller]
    requires m.run.slug == l.run.slug
    requires m.driver.AuditOwed? || (m.driver.AtStep? && m.driver.caller == l.driver.caller)
    ensures Authorised(cfg, d, m)
  {
    assert StepsOf(cfg, m) == StepsOf(cfg, l);
    assert Vouched(cfg, d, l.driver.caller, row.department);
  }

  lemma GrowsReflexive(d: Directory)
    ensures Grows(d, d)
  {
  }

  lemma StaysAuthorised(cfg: Config, w: World, l: Life, e: Event)
    requires IsRunEvent(e) && CanLife(cfg, w, l, e) && OnTrack(cfg, e.run, l) && Authorised(cfg, w.directory, l)
    ensures Authorised(cfg, w.directory, LifeAfter(cfg, w, l, e))
  {
    if e.CommitRow? || e.CommitFailure? || e.CommitEscalation? {
      RecordKeepsAuthority(cfg, w, l, e);
    } else {
      var m := LifeAfter(cfg, w, l, e);
      assert StepsOf(cfg, m) == StepsOf(cfg, l);
      if e.CheckResume? {
        GrowsReflexive(w.directory);
        CheckAuthorised(cfg, w, l, m, e.user);
      } else {
        AuthorityKept(cfg, w.directory, l, m);
      }
    }
  }

  lemma CheckAuthorised(cfg: Config, w: World, l: Life, m: Life, user: UserId)
    requires Authorised(cfg, w.directory, l) && Grows(w.directory, w.directory)
    requires CanDriveFrom(cfg, w.directory, user, StepsOf(cfg, l), |l.rows|)
    requires m.rows == l.rows && m.notes.authors == l.notes.authors && m.run == l.run
    requires m.driver.ResumeChecked? && m.driver.caller == Caller(user, w.directory)
    ensures Authorised(cfg, w.directory, m)
  {
  }

  lemma AuthorityKept(cfg: Config, d: Directory, l: Life, m: Life)
    requires Authorised(cfg, d, l) && m.rows == l.rows && m.notes.authors == l.notes.authors
    requires m.run.slug == l.run.slug
    requires m.driver.NoDriver? || m.driver.AuditOwed?
             || (!l.driver.NoDriver? && !l.driver.AuditOwed? && m.driver.caller == l.driver.caller)
    ensures Authorised(cfg, d, m)
  {
    assert StepsOf(cfg, m) == StepsOf(cfg, l);
  }
}
