/** The request handlers and the step loop as they run, over the tables they write. Between any two of
    their awaits the rest of the platform may act (`Elsewhere`); `log` is the history of everything that
    happened, and the tables always mirror the state that history leads to. A crash is a handler that stops at
    any of its awaits; what it leaves behind is covered by the theorems over arbitrary histories. */
module Executor {
  import opened Common
  import opened Rbac
  import opened Workflow
  import opened Engine
  import opened EngineTheorems
  import Session

  datatype StepResult = StepResult(department: string, output: string, escalated: bool)

  datatype Outcome =
    | AllDone(steps: seq<StepResult>)
    | FailedAt(department: string, error: string, steps: seq<StepResult>)
    | PausedAt(department: string, approval: ApprovalId, reason: string, steps: seq<StepResult>)
    | LostRun(department: string, approval: ApprovalId)   // the exception of a re-read that finds no run

  datatype Response =
    | UnknownWorkflow | Unauthorized | UnknownDepartment(department: string) | MissingPermission(department: string)
    | RateLimited | InputRequired | AsyncDisabled | RunNotFound | NotAwaitingApproval(status: RunStatus)
    | NotApprovedYet | Queued | Ran(outcome: Outcome)

  datatype Verdict = Forbidden | BadDecision | ApprovalNotFound | AlreadyDecided(status: ApprovalStatus) | Recorded

  /** The loop leaves a call behind without going on: the call failed, or its response pauses the run. */
  predicate Stops(cfg: Config, x: Exchange) {
    x.answer.ProvidersFailed? || PauseReason(cfg, x.department, x.answer.text).Some?
  }

  /** The first call at or after i where the loop stops, or the end of the trace. */
  function FirstStop(cfg: Config, trace: seq<Exchange>, i: nat): (s: nat)
    requires i <= |trace|
    ensures i <= s <= |trace|
    ensures s < |trace| ==> Stops(cfg, trace[s])
    ensures forall j :: i <= j < s ==> !Stops(cfg, trace[j])
    decreases |trace| - i
  {
    if i == |trace| || Stops(cfg, trace[i]) then i else FirstStop(cfg, trace, i + 1)
  }

  function ResultOf(row: StepRow): StepResult {
    StepResult(row.department, row.output.GetOr(""), row.escalated)
  }

  function ResultsOf(rows: seq<StepRow>): (results: seq<StepResult>)
    ensures |results| == |rows|
    ensures forall i :: 0 <= i < |rows| ==>
      results[i].department == rows[i].department && results[i].output == rows[i].output.GetOr("")
      && results[i].escalated == rows[i].escalated
  {
    seq(|rows|, i requires 0 <= i < |rows| => ResultOf(rows[i]))
  }

  ghost function RowsFor(cfg: Config, xs: seq<Exchange>): seq<StepRow> {
    seq(|xs|, i requires 0 <= i < |xs| => RowFor(cfg, xs[i]))
  }

  /** What one driver leaves in the tables, has asked so far, and reports. */
  datatype Leg = Leg(rows: seq<StepRow>, calls: seq<Exchange>, run: Run, audits: seq<AuditAction>,
                     filed: seq<ApprovalId>, outcome: Outcome)

  /** The settings that the session of a run's step falls back to when its transaction ends: anything a pooled
      connection may carry. */
  type Pool = (RunId, nat) -> Session.Settings

  /** The run's row as the row-level policy sees it. */
  function RunRow(r: RunId, tenant: string): Session.Row {
    Session.Row("workflow_runs", r, tenant, "")
  }

  /** The leg the uninterrupted loop prescribes for a driver that finds the run as `before`: up to the first stop
      and no further. Only the id of a new approval is not determined by it. A pause whose run the inherited
      settings hide after the approval's commit leaves no more than that approval. */
  ghost function Prescribed(cfg: Config, pool: Pool, r: RunId, before: Life, trace: seq<Exchange>,
                            approval: ApprovalId): Leg
    requires |before.rows| <= |trace|
  {
    var start, filed := |before.rows|, before.notes.filed;
    var s := FirstStop(cfg, trace, start);
    if s == |trace| then
      Leg(RowsFor(cfg, trace), trace, before.run.(status := Completed, pending := None),
          before.audits + [WorkflowCompleted], filed, AllDone(ResultsOf(RowsFor(cfg, trace)[start..])))
    else
      var x, calls := trace[s], trace[..s + 1];
      match x.answer
      case ProvidersFailed(error) =>
        Leg(RowsFor(cfg, calls), calls,
            before.run.(status := Failed, error := Some(FailureText(s, x.department, error))),
            before.audits + [WorkflowFailed], filed,
            FailedAt(x.department, error, ResultsOf(RowsFor(cfg, trace)[start..s])))
      case Reply(text) =>
        if Session.Admits(pool(r, s), RunRow(r, before.run.tenant))
        then Leg(RowsFor(cfg, calls), calls, before.run.(status := Escalated, pending := Some(approval)),
                 before.audits + [WorkflowEscalated], filed + [approval],
                 PausedAt(x.department, approval, PauseReason(cfg, x.department, text).value,
                          ResultsOf(RowsFor(cfg, trace)[start..s + 1])))
        else Leg(RowsFor(cfg, trace[..s]), calls, before.run, before.audits, filed + [approval],
                 LostRun(x.department, approval))
  }

  function ApprovalOf(outcome: Outcome): ApprovalId {
    match outcome
    case PausedAt(_, a, _, _) => a
    case LostRun(_, a) => a
    case _ => ""
  }

  ghost predicate DroveToFirstStop(cfg: Config, pool: Pool, r: RunId, before: Life, after: Life, outcome: Outcome) {
    && before.run.slug in cfg.workflows
    && |before.rows| <= |TraceOf(cfg, r, before.run)|
    && Leg(after.rows, after.notes.calls, after.run, after.audits, after.notes.filed, outcome)
       == Prescribed(cfg, pool, r, before, TraceOf(cfg, r, before.run), ApprovalOf(outcome))
  }

  /** The approval of a pause is new, for the run's tenant, the step's department, by the step's agent. */
  predicate FiledFresh(outcome: Outcome, tenant: string, was: map<ApprovalId, Approval>,
                       now: map<ApprovalId, Approval>) {
    outcome.PausedAt? || outcome.LostRun? ==>
      ApprovalOf(outcome) !in was && FiledFor(now, ApprovalOf(outcome), tenant, outcome.department)
  }

  predicate FiledFor(approvals: map<ApprovalId, Approval>, a: ApprovalId, tenant: string, department: string) {
    && a in approvals && approvals[a].tenant == tenant && approvals[a].department == department
    && approvals[a].requestedBy == "agent:" + department
  }

  /** The driver has passed only calls that do not stop it, and reported each. */
  ghost predicate Underway(cfg: Config, r: RunId, before: Life, l: Life, results: seq<StepResult>) {
    && before.run.slug in cfg.workflows
    && var trace := TraceOf(cfg, r, before.run);
       && |before.rows| <= |l.rows| <= |trace|
       && before.rows <= l.rows && l.run == before.run && l.audits == before.audits
       && l.notes.filed == before.notes.filed
       && FirstStop(cfg, trace, |before.rows|) == FirstStop(cfg, trace, |l.rows|)
       && results == ResultsOf(l.rows[|before.rows|..])
  }

  /** Both predicates look only at what the tables say of the run. */
  lemma StillUnderway(cfg: Config, r: RunId, before: Life, l: Life, m: Life, results: seq<StepResult>)
    requires Underway(cfg, r, before, l, results) && m.rows == l.rows && m.run == l.run && m.audits == l.audits
    requires m.notes.filed == l.notes.filed
    ensures Underway(cfg, r, before, m, results)
  {
  }

  lemma SameStart(cfg: Config, pool: Pool, r: RunId, before: Life, start: Life, after: Life, outcome: Outcome)
    requires DroveToFirstStop(cfg, pool, r, start, after, outcome)
    requires before.rows == start.rows && before.run == start.run && before.audits == start.audits
    requires before.notes.filed == start.notes.filed
    ensures DroveToFirstStop(cfg, pool, r, before, after, outcome)
  {
  }

  lemma StartsAtItsRows(cfg: Config, d: Directory, es: seq<Event>, w: World, r: RunId)
    requires Exec(cfg, Genesis(d), es) == Some(w) && r in w.lives && w.lives[r].driver.AtStep?
    ensures Underway(cfg, r, w.lives[r], w.lives[r], [])
    ensures w.lives[r].driver.index == |w.lives[r].rows| <= |StepsOf(cfg, w.lives[r])|
  {
    ReachableOnTrack(cfg, d, es, w, r);
    StepsMatch(cfg, r, w.lives[r]);
  }

  /** The call the driver is about to make is the next one of the trace. */
  lemma NextCall(cfg: Config, d: Directory, es: seq<Event>, w: World, r: RunId)
    requires Exec(cfg, Genesis(d), es) == Some(w) && r in w.lives
    requires w.lives[r].driver.AtStep? && w.lives[r].driver.index < |StepsOf(cfg, w.lives[r])|
    ensures w.lives[r].run.slug in cfg.workflows
    ensures var l := w.lives[r]; var trace := TraceOf(cfg, r, l.run);
      && l.driver.index == |l.rows| < |trace|
      && trace[|l.rows|] == Ask(cfg, r, StepsOf(cfg, l), l.run.input, |l.rows|, l.driver.previous)
      && trace[|l.rows|].index == |l.rows|
  {
    var l := w.lives[r];
    ReachableOnTrack(cfg, d, es, w, r);
    StepsMatch(cfg, r, l);
    var trace, k := TraceOf(cfg, r, l.run), |l.rows|;
    assert k > 0 ==> trace[k - 1].answer.Reply?;
    assert k < |trace|;
    assert Linked(cfg, r, StepsOf(cfg, l), l.run.input, trace, k);
  }

  lemma ResultsGrow(rows: seq<StepRow>, row: StepRow, from: nat)
    requires from <= |rows|
    ensures ResultsOf((rows + [row])[from..]) == ResultsOf(rows[from..]) + [ResultOf(row)]
  {
    assert (rows + [row])[from..] == rows[from..] + [row];
  }

  lemma GoesOn(cfg: Config, r: RunId, before: Life, l: Life, m: Life, results: seq<StepResult>)
    requires Underway(cfg, r, before, l, results) && |l.rows| < |TraceOf(cfg, r, before.run)|
    requires var x := TraceOf(cfg, r, before.run)[|l.rows|];
      && !Stops(cfg, x) && m.rows == l.rows + [RowFor(cfg, x)] && m.run == l.run
      && m.audits == l.audits && m.notes.filed == l.notes.filed
    ensures Underway(cfg, r, before, m, results + [ResultOf(m.rows[|l.rows|])])
  {
    ResultsGrow(l.rows, m.rows[|l.rows|], |before.rows|);
  }

  /** A run that is not under way holds the rows and calls of a prefix of its trace. */
  lemma RowsAreTheTraces(cfg: Config, d: Directory, es: seq<Event>, w: World, r: RunId)
    requires Exec(cfg, Genesis(d), es) == Some(w) && r in w.lives && w.lives[r].run.status != Running
    ensures w.lives[r].run.slug in cfg.workflows
    ensures var m := w.lives[r]; var trace := TraceOf(cfg, r, m.run);
      && |m.rows| <= |trace|
      && m.notes.calls == trace[..|m.rows|]
      && m.rows == RowsFor(cfg, trace[..|m.rows|]) == RowsFor(cfg, trace)[..|m.rows|]
      && (m.run.status == Completed ==> |m.rows| == |trace|)
  {
    ReachableOnTrack(cfg, d, es, w, r);
    StepsMatch(cfg, r, w.lives[r]);
  }

  lemma EndsFailed(cfg: Config, pool: Pool, d: Directory, es: seq<Event>, w: World, r: RunId, before: Life, l: Life,
                   results: seq<StepResult>)
    requires Underway(cfg, r, before, l, results) && |l.rows| < |TraceOf(cfg, r, before.run)|
    requires Exec(cfg, Genesis(d), es) == Some(w) && r in w.lives && w.lives[r].driver.NoDriver?
    requires var x := TraceOf(cfg, r, before.run)[|l.rows|]; var m := w.lives[r];
      && x.answer.ProvidersFailed? && x.index == |l.rows| && m.rows == l.rows + [RowFor(cfg, x)]
      && m.run == l.run.(status := Failed, error := Some(FailureText(x.index, x.department, x.answer.error)))
      && m.audits == l.audits + [WorkflowFailed] && m.notes.filed == l.notes.filed
    ensures var x := TraceOf(cfg, r, before.run)[|l.rows|]; var m := w.lives[r];
      DroveToFirstStop(cfg, pool, r, before, m, FailedAt(x.department, x.answer.error, results))
  {
    var m := w.lives[r];
    var trace := TraceOf(cfg, r, before.run);
    var k := |l.rows|;
    RowsAreTheTraces(cfg, d, es, w, r);
    assert m.rows[|before.rows|..k] == l.rows[|before.rows|..] == RowsFor(cfg, trace)[|before.rows|..k];
  }

  /** What the loop prescribes at a pause, and at one whose run is lost. */
  lemma PrescribedAtPause(cfg: Config, pool: Pool, r: RunId, before: Life, trace: seq<Exchange>, s: nat,
                          approval: ApprovalId, reason: string)
    requires |before.rows| <= s < |trace| && FirstStop(cfg, trace, |before.rows|) == FirstStop(cfg, trace, s)
    requires trace[s].answer.Reply? && PauseReason(cfg, trace[s].department, trace[s].answer.text) == Some(reason)
    ensures var filed := before.notes.filed + [approval];
      Prescribed(cfg, pool, r, before, trace, approval) ==
        if Session.Admits(pool(r, s), RunRow(r, before.run.tenant))
        then Leg(RowsFor(cfg, trace[..s + 1]), trace[..s + 1],
                 before.run.(status := Escalated, pending := Some(approval)), before.audits + [WorkflowEscalated],
                 filed,
                 PausedAt(trace[s].department, approval, reason,
                          ResultsOf(RowsFor(cfg, trace)[|before.rows|..s + 1])))
        else Leg(RowsFor(cfg, trace[..s]), trace[..s + 1], before.run, before.audits, filed,
                 LostRun(trace[s].department, approval))
  {
    assert Stops(cfg, trace[s]);
    assert FirstStop(cfg, trace, s) == s;
  }

  lemma EndsPaused(cfg: Config, pool: Pool, d: Directory, es: seq<Event>, w: World, r: RunId, before: Life, l: Life,
                   results: seq<StepResult>, approval: ApprovalId, reason: string)
    requires Underway(cfg, r, before, l, results) && |l.rows| < |TraceOf(cfg, r, before.run)|
    requires Exec(cfg, Genesis(d), es) == Some(w) && r in w.lives && w.lives[r].driver.NoDriver?
    requires var x := TraceOf(cfg, r, before.run)[|l.rows|]; var m := w.lives[r];
      && x.answer.Reply? && PauseReason(cfg, x.department, x.answer.text) == Some(reason)
      && m.rows == l.rows + [RowFor(cfg, x)]
      && m.run == l.run.(status := Escalated, pending := Some(approval)) && m.audits == l.audits + [WorkflowEscalated]
      && m.notes.filed == l.notes.filed + [approval]
    requires Session.Admits(pool(r, |l.rows|), RunRow(r, before.run.tenant))
    ensures var x := TraceOf(cfg, r, before.run)[|l.rows|]; var m := w.lives[r];
      DroveToFirstStop(cfg, pool, r, before, m,
                       PausedAt(x.department, approval, reason, results + [ResultOf(m.rows[|l.rows|])]))
  {
    var m := w.lives[r];
    var trace := TraceOf(cfg, r, before.run);
    RowsAreTheTraces(cfg, d, es, w, r);
    PrescribedAtPause(cfg, pool, r, before, trace, |l.rows|, approval, reason);
    ResultsGrow(l.rows, m.rows[|l.rows|], |before.rows|);
    assert m.rows[|before.rows|..] == RowsFor(cfg, trace)[|before.rows|..|m.rows|];
  }

  /** The call that pauses was made, but neither its row nor the run's new status was written. */
  lemma EndsLost(cfg: Config, pool: Pool, r: RunId, before: Life, l: Life, m: Life, results: seq<StepResult>,
                 approval: ApprovalId)
    requires Underway(cfg, r, before, l, results) && |l.rows| < |TraceOf(cfg, r, before.run)|
    requires OnTrack(cfg, r, l) && l.driver.Answered?
    requires m.rows == l.rows && m.run == l.run && m.audits == l.audits && m.notes.calls == l.notes.calls
    requires m.notes.filed == l.notes.filed + [approval]
    requires !Session.Admits(pool(r, |l.rows|), RunRow(r, before.run.tenant))
    requires var x := TraceOf(cfg, r, before.run)[|l.rows|];
      x.answer.Reply? && PauseReason(cfg, x.department, x.answer.text).Some?
    ensures var x := TraceOf(cfg, r, before.run)[|l.rows|];
      DroveToFirstStop(cfg, pool, r, before, m, LostRun(x.department, approval))
  {
    var trace, k := TraceOf(cfg, r, before.run), |l.rows|;
    PrescribedAtPause(cfg, pool, r, before, trace, k, approval,
                      PauseReason(cfg, trace[k].department, trace[k].answer.text).value);
    assert m.rows == RowsFor(cfg, trace[..k]);
    assert m.notes.calls == trace[..k + 1];
  }

  function PauseOutcome(x: Exchange, approval: ApprovalId, reason: string, results: seq<StepResult>, found: bool)
    : Outcome
    requires x.answer.Reply?
  {
    if found
    then PausedAt(x.department, approval, reason, results + [StepResult(x.department, x.answer.text, true)])
    else LostRun(x.department, approval)
  }

  lemma EndsAtPause(cfg: Config, pool: Pool, d: Directory, es: seq<Event>, w: World, r: RunId, before: Life, l: Life,
                    results: seq<StepResult>, approval: ApprovalId, reason: string, found: bool)
    requires Underway(cfg, r, before, l, results) && |l.rows| < |TraceOf(cfg, r, before.run)|
    requires OnTrack(cfg, r, l) && l.driver.Answered?
    requires Exec(cfg, Genesis(d), es) == Some(w) && r in w.lives && w.lives[r].driver.NoDriver?
    requires var x := TraceOf(cfg, r, before.run)[|l.rows|];
      x.answer.Reply? && PauseReason(cfg, x.department, x.answer.text) == Some(reason)
    requires w.lives[r].notes.filed == l.notes.filed + [approval]
    requires found <==> Session.Admits(pool(r, |l.rows|), RunRow(r, before.run.tenant))
    requires var x := TraceOf(cfg, r, before.run)[|l.rows|]; var m := w.lives[r]; found ==>
      && m.rows == l.rows + [RowFor(cfg, x)] && m.audits == l.audits + [WorkflowEscalated]
      && m.run == l.run.(status := Escalated, pending := Some(approval))
    requires var m := w.lives[r]; !found ==>
      m.rows == l.rows && m.audits == l.audits && m.run == l.run && m.notes.calls == l.notes.calls
    ensures var x := TraceOf(cfg, r, before.run)[|l.rows|];
      DroveToFirstStop(cfg, pool, r, before, w.lives[r], PauseOutcome(x, approval, reason, results, found))
  {
    if found {
      EndsPaused(cfg, pool, d, es, w, r, before, l, results, approval, reason);
    } else {
      EndsLost(cfg, pool, r, before, l, w.lives[r], results, approval);
    }
  }

  predicate Reports(steps: seq<StepResult>, rows: seq<StepRow>) {
    && |steps| == |rows|
    && forall i :: 0 <= i < |rows| ==>
         && steps[i].department == rows[i].department && steps[i].escalated == rows[i].escalated
         && rows[i].output == Some(steps[i].output)
  }

  /** The results of calls that all replied report their rows. */
  lemma RepliesReport(cfg: Config, trace: seq<Exchange>, from: nat, to: nat)
    requires from <= to <= |trace| && forall i :: from <= i < to ==> trace[i].answer.Reply?
    ensures Reports(ResultsOf(RowsFor(cfg, trace)[from..to]), RowsFor(cfg, trace)[from..to])
  {
    var rows := RowsFor(cfg, trace)[from..to];
    forall i | 0 <= i < |rows| ensures rows[i].output.Some? {
      assert rows[i] == RowFor(cfg, trace[from + i]);
    }
  }

  lemma RowsOfPrefix(cfg: Config, trace: seq<Exchange>, n: nat, from: nat, to: nat)
    requires from <= to <= n <= |trace|
    ensures RowsFor(cfg, trace[..n])[from..to] == RowsFor(cfg, trace)[from..to]
  {
  }

  /** What the caller is told agrees with what the tables say: which steps this leg passed, and where and why it
      stopped. */
  lemma DoneReadsTheTables(cfg: Config, pool: Pool, r: RunId, before: Life, after: Life, outcome: Outcome)
    requires DroveToFirstStop(cfg, pool, r, before, after, outcome) && outcome.AllDone?
    ensures after.run.status == Completed && after.run.pending.None? && |before.rows| <= |after.rows|
    ensures Reports(outcome.steps, after.rows[|before.rows|..])
  {
    var trace := TraceOf(cfg, r, before.run);
    RepliesReport(cfg, trace, |before.rows|, |trace|);
    assert after.rows[|before.rows|..] == RowsFor(cfg, trace)[|before.rows|..|trace|];
  }

  lemma FailureReadsTheTables(cfg: Config, pool: Pool, r: RunId, before: Life, after: Life, outcome: Outcome)
    requires DroveToFirstStop(cfg, pool, r, before, after, outcome) && outcome.FailedAt?
    ensures after.run.status == Failed && |before.rows| < |after.rows|
    ensures var last := after.rows[|after.rows| - 1];
      outcome.department == last.department && last.error == Some(outcome.error) && last.status == Failed
    ensures Reports(outcome.steps, after.rows[|before.rows|..|after.rows| - 1])
  {
    var trace, start := TraceOf(cfg, r, before.run), |before.rows|;
    var s := FirstStop(cfg, trace, start);
    RepliesReport(cfg, trace, start, s);
    RowsOfPrefix(cfg, trace, s + 1, start, s);
    assert after.rows == RowsFor(cfg, trace[..s + 1]);
  }

  lemma PauseReadsTheTables(cfg: Config, pool: Pool, r: RunId, before: Life, after: Life, outcome: Outcome)
    requires DroveToFirstStop(cfg, pool, r, before, after, outcome) && outcome.PausedAt?
    ensures after.run.status == Escalated && |before.rows| < |after.rows|
    ensures after.run.pending == Some(outcome.approval) && after.notes.filed == before.notes.filed + [outcome.approval]
    ensures var last := after.rows[|after.rows| - 1];
      outcome.department == last.department && last.reason == Some(outcome.reason) && last.escalated
    ensures Reports(outcome.steps, after.rows[|before.rows|..])
  {
    var trace, start := TraceOf(cfg, r, before.run), |before.rows|;
    var s := FirstStop(cfg, trace, start);
    RepliesReport(cfg, trace, start, s + 1);
    RowsOfPrefix(cfg, trace, s + 1, start, s + 1);
    assert after.rows == RowsFor(cfg, trace[..s + 1]);
    assert after.rows[start..] == after.rows[start..s + 1];
  }

  lemma LossReadsTheTables(cfg: Config, pool: Pool, r: RunId, before: Life, after: Life, outcome: Outcome)
    requires DroveToFirstStop(cfg, pool, r, before, after, outcome) && outcome.LostRun?
    ensures after.run == before.run && after.audits == before.audits
    ensures after.notes.filed == before.notes.filed + [outcome.approval]
    ensures |after.notes.calls| == |after.rows| + 1 && outcome.department == after.notes.calls[|after.rows|].department
  {
  }

  lemma EndsDone(cfg: Config, pool: Pool, d: Directory, es: seq<Event>, w: World, r: RunId, before: Life, l: Life,
                 results: seq<StepResult>)
    requires Underway(cfg, r, before, l, results)
    requires Exec(cfg, Genesis(d), es) == Some(w) && r in w.lives && w.lives[r].driver.NoDriver?
    requires var m := w.lives[r];
      && m.rows == l.rows && m.run == l.run.(status := Completed, pending := None)
      && m.audits == l.audits + [WorkflowCompleted] && m.notes.filed == l.notes.filed
    ensures DroveToFirstStop(cfg, pool, r, before, w.lives[r], AllDone(results))
  {
    var m := w.lives[r];
    var trace := TraceOf(cfg, r, before.run);
    RowsAreTheTraces(cfg, d, es, w, r);
    assert trace[..|trace|] == trace;
  }

  predicate OrderedByIndex(rows: seq<StepRow>) {
    forall i, j :: 0 <= i < j < |rows| ==> rows[i].index <= rows[j].index
  }

  /** ORDER BY step_index has only one answer on rows shaped 0, 1, 2, ... */
  lemma {:induction false} OrderByIsTheTable(loaded: seq<StepRow>, rows: seq<StepRow>)
    requires multiset(loaded) == multiset(rows) && OrderedByIndex(loaded)
    requires forall i :: 0 <= i < |rows| ==> rows[i].index == i
    ensures loaded == rows
    decreases |rows|
  {
    SameSize(loaded, rows);
    if rows != [] {
      var n := |rows| - 1;
      SameLast(loaded, rows);
      OrderByIsTheTable(loaded[..n], rows[..n]);
      assert loaded == loaded[..n] + [loaded[n]] && rows == rows[..n] + [rows[n]];
    }
  }

  /** The last row of an ordered permutation of rows 0..n is row n itself. */
  lemma SameLast(loaded: seq<StepRow>, rows: seq<StepRow>)
    requires multiset(loaded) == multiset(rows) && OrderedByIndex(loaded) && |loaded| == |rows| > 0
    requires forall i :: 0 <= i < |rows| ==> rows[i].index == i
    ensures loaded[|rows| - 1] == rows[|rows| - 1]
    ensures multiset(loaded[..|rows| - 1]) == multiset(rows[..|rows| - 1])
  {
    var n := |rows| - 1;
    var p := Find(rows[n], rows, loaded);
    var q := Find(loaded[n], loaded, rows);
    assert loaded[p].index <= loaded[n].index;
    DropLast(loaded);
    DropLast(rows);
  }

  lemma Find<T>(x: T, s: seq<T>, t: seq<T>) returns (p: nat)
    requires x in s && multiset(s) == multiset(t)
    ensures p < |t| && t[p] == x
  {
    assert x in multiset(t);
    p :| p < |t| && t[p] == x;
  }

  lemma DropLast<T>(s: seq<T>)
    requires s != []
    ensures multiset(s[..|s| - 1]) == multiset(s) - multiset{s[|s| - 1]}
  {
    assert s == s[..|s| - 1] + [s[|s| - 1]];
  }

  lemma SameSize<T>(s: seq<T>, t: seq<T>)
    requires multiset(s) == multiset(t)
    ensures |s| == |t|
  {
    assert |multiset(s)| == |multiset(t)|;
  }

  predicate Foreign(e: Event, r: RunId) {
    !(IsRunEvent(e) && e.run == r)
  }

  /** What others do leaves a run as it was. */
  lemma {:induction false} OthersLeaveTheRun(cfg: Config, w: World, es: seq<Event>, v: World, r: RunId)
    requires Exec(cfg, w, es) == Some(v) && r in w.lives
    requires forall i :: 0 <= i < |es| ==> Foreign(es[i], r)
    ensures r in v.lives && v.lives[r] == w.lives[r]
    decreases |es|
  {
    if es != [] {
      var u, e := Exec(cfg, w, es[..|es| - 1]).value, es[|es| - 1];
      OthersLeaveTheRun(cfg, w, es[..|es| - 1], u, r);
      ApplyOnlyGrows(cfg, u, e);
    }
  }

  // ---------------------------------------------------------------- the tables, and what each commit does to them

  /** The committed tables; `auditRows` are the audit_logs rows whose resource is a run. */
  datatype Database = Database(directory: Directory, runs: map<RunId, Run>, stepRows: map<RunId, seq<StepRow>>,
                               auditRows: map<RunId, seq<AuditAction>>, approvals: map<ApprovalId, Approval>)

  ghost predicate Mirrors(db: Database, w: World) {
    && db.directory == w.directory && db.approvals == w.approvals
    && db.runs.Keys == db.stepRows.Keys == db.auditRows.Keys == w.lives.Keys
    && forall r :: r in w.lives ==>
         db.runs[r] == w.lives[r].run && db.stepRows[r] == w.lives[r].rows && db.auditRows[r] == w.lives[r].audits
  }

  /** The event is possible and makes `m` of the run's life, and nothing else changes. */
  ghost predicate Becomes(cfg: Config, w: World, e: Event, r: RunId, m: Life) {
    Enabled(cfg, w, e) && Apply(cfg, w, e) == w.(lives := w.lives[r := m])
  }

  lemma AskingEffect(cfg: Config, db: Database, w: World, r: RunId) returns (m: Life)
    requires Mirrors(db, w) && r in w.lives
    requires w.lives[r].driver.AtStep? && w.lives[r].driver.index < |StepsOf(cfg, w.lives[r])|
    ensures Becomes(cfg, w, Event.AskAgent(r), r, m)
    ensures var l := w.lives[r];
      m.run == l.run && m.rows == l.rows && m.audits == l.audits && m.notes.filed == l.notes.filed
    ensures Mirrors(db, w.(lives := w.lives[r := m]))
  {
    m := LifeAfter(cfg, w, w.lives[r], Event.AskAgent(r));
  }

  lemma SuccessEffect(cfg: Config, db: Database, w: World, r: RunId, caller: Caller, x: Exchange) returns (m: Life)
    requires Mirrors(db, w) && r in w.lives && w.lives[r].driver == Answered(caller, x) && x.answer.Reply?
    requires PauseReason(cfg, x.department, x.answer.text).None?
    ensures Becomes(cfg, w, CommitRow(r), r, m) && m.driver == AtStep(caller, x.index + 1, x.answer.text)
    ensures var l := w.lives[r];
      && m.rows == l.rows + [StepRow(x.index, x.department, Completed, Some(x.answer.text), None, false, None)]
      && m.rows == l.rows + [RowFor(cfg, x)] && m.run == l.run && m.audits == l.audits && m.notes.filed == l.notes.filed
    ensures Mirrors(db.(stepRows := db.stepRows[r := m.rows]), w.(lives := w.lives[r := m]))
  {
    m := LifeAfter(cfg, w, w.lives[r], CommitRow(r));
  }

  lemma FailureEffect(cfg: Config, db: Database, w: World, r: RunId, caller: Caller, x: Exchange) returns (m: Life)
    requires Mirrors(db, w) && r in w.lives && w.lives[r].driver == Answered(caller, x) && x.answer.ProvidersFailed?
    ensures Becomes(cfg, w, CommitFailure(r), r, m) && m.driver == AuditOwed(caller, WorkflowFailed)
    ensures var l := w.lives[r];
      && m.rows == l.rows + [StepRow(x.index, x.department, Failed, None, Some(x.answer.error), false, None)]
      && m.rows == l.rows + [RowFor(cfg, x)] && m.audits == l.audits && m.notes.filed == l.notes.filed
      && m.run == l.run.(status := Failed, error := Some(FailureText(x.index, x.department, x.answer.error)))
    ensures Mirrors(db.(stepRows := db.stepRows[r := m.rows], runs := db.runs[r := m.run]),
                    w.(lives := w.lives[r := m]))
  {
    m := LifeAfter(cfg, w, w.lives[r], CommitFailure(r));
  }

  lemma PauseEffect(cfg: Config, db: Database, w: World, r: RunId, caller: Caller, x: Exchange, approval: ApprovalId,
                    reason: string)
    returns (m: Life)
    requires Mirrors(db, w) && r in w.lives
    requires w.lives[r].driver == ApprovalCommitted(caller, x, approval) && x.answer.Reply?
    requires PauseReason(cfg, x.department, x.answer.text) == Some(reason)
    ensures Becomes(cfg, w, CommitEscalation(r), r, m) && m.driver == AuditOwed(caller, WorkflowEscalated)
    ensures var l := w.lives[r];
      && m.rows == l.rows + [StepRow(x.index, x.department, Completed, Some(x.answer.text), None, true, Some(reason))]
      && m.rows == l.rows + [RowFor(cfg, x)] && m.audits == l.audits && m.notes.filed == l.notes.filed
      && m.run == l.run.(status := Escalated, pending := Some(approval))
    ensures Mirrors(db.(stepRows := db.stepRows[r := m.rows], runs := db.runs[r := m.run]),
                    w.(lives := w.lives[r := m]))
  {
    m := LifeAfter(cfg, w, w.lives[r], CommitEscalation(r));
  }

  lemma CompletionEffect(cfg: Config, db: Database, w: World, r: RunId, caller: Caller) returns (m: Life)
    requires Mirrors(db, w) && r in w.lives && w.lives[r].driver.AtStep? && w.lives[r].driver.caller == caller
    requires w.lives[r].driver.index >= |StepsOf(cfg, w.lives[r])|
    ensures Becomes(cfg, w, CommitCompletion(r), r, m) && m.driver == AuditOwed(caller, WorkflowCompleted)
    ensures var l := w.lives[r];
      && m.rows == l.rows && m.audits == l.audits && m.notes.filed == l.notes.filed
      && m.run == l.run.(status := Completed, pending := None)
    ensures Mirrors(db.(runs := db.runs[r := m.run]), w.(lives := w.lives[r := m]))
  {
    m := LifeAfter(cfg, w, w.lives[r], CommitCompletion(r));
  }

  lemma AuditEffect(cfg: Config, db: Database, w: World, r: RunId) returns (m: Life)
    requires Mirrors(db, w) && r in w.lives && w.lives[r].driver.AuditOwed?
    ensures Becomes(cfg, w, CommitAudit(r), r, m)
    ensures var l := w.lives[r]; m == l.(audits := l.audits + [l.driver.action], driver := NoDriver)
    ensures Mirrors(db.(auditRows := db.auditRows[r := m.audits]), w.(lives := w.lives[r := m]))
  {
    m := LifeAfter(cfg, w, w.lives[r], CommitAudit(r));
  }

  lemma ResumeEffect(cfg: Config, db: Database, w: World, r: RunId) returns (m: Life)
    requires Mirrors(db, w) && r in w.lives && w.lives[r].driver.ResumeChecked?
    ensures Becomes(cfg, w, CommitResume(r), r, m)
    ensures var l := w.lives[r];
      && m.rows == l.rows && m.audits == l.audits && m.notes.filed == l.notes.filed
      && m.run == l.run.(status := Running)
      && m.driver == AtStep(l.driver.caller, l.driver.index, l.driver.previous)
    ensures Mirrors(db.(runs := db.runs[r := m.run]), w.(lives := w.lives[r := m]))
  {
    m := LifeAfter(cfg, w, w.lives[r], CommitResume(r));
  }

  lemma CheckEffect(cfg: Config, db: Database, w: World, r: RunId, user: UserId) returns (m: Life)
    requires Mirrors(db, w) && r in w.lives && w.lives[r].driver.NoDriver? && CanResume(cfg, w, w.lives[r], user)
    ensures Becomes(cfg, w, CheckResume(r, user), r, m)
    ensures var l := w.lives[r];
      m == l.(driver := ResumeChecked(Caller(user, w.directory), |l.rows|, LastOutput(l.rows)))
    ensures Mirrors(db, w.(lives := w.lives[r := m]))
  {
    m := LifeAfter(cfg, w, w.lives[r], CheckResume(r, user));
  }

  lemma CrashEffect(cfg: Config, db: Database, w: World, r: RunId) returns (m: Life)
    requires Mirrors(db, w) && r in w.lives && !w.lives[r].driver.NoDriver?
    ensures Becomes(cfg, w, Crash(r), r, m) && m.driver.NoDriver?
    ensures var l := w.lives[r]; m.run == l.run && m.rows == l.rows && m.audits == l.audits
    ensures var l := w.lives[r]; m.notes.calls == l.notes.calls && m.notes.filed == l.notes.filed
    ensures Mirrors(db, w.(lives := w.lives[r := m]))
  {
    m := LifeAfter(cfg, w, w.lives[r], Crash(r));
  }

  lemma ApprovalEffect(cfg: Config, db: Database, w: World, r: RunId, caller: Caller, x: Exchange, a: ApprovalId)
    returns (m: Life)
    requires Mirrors(db, w) && r in w.lives && a !in w.approvals
    requires w.lives[r].driver == Answered(caller, x) && x.answer.Reply?
    requires PauseReason(cfg, x.department, x.answer.text).Some?
    ensures Enabled(cfg, w, CommitApproval(r, a))
    ensures Apply(cfg, w, CommitApproval(r, a)) == World(w.directory, w.lives[r := m],
      w.approvals[a := Approval(w.lives[r].run.tenant, x.department, "agent:" + x.department, Pending, None)])
    ensures var l := w.lives[r]; m.run == l.run && m.rows == l.rows && m.audits == l.audits
    ensures var l := w.lives[r]; m.notes.calls == l.notes.calls && m.notes.filed == l.notes.filed + [a]
    ensures m.driver == ApprovalCommitted(caller, x, a)
    ensures Mirrors(db.(approvals := Apply(cfg, w, CommitApproval(r, a)).approvals),
                    Apply(cfg, w, CommitApproval(r, a)))
  {
    m := LifeAfter(cfg, w, w.lives[r], CommitApproval(r, a));
  }

  lemma StartEffect(cfg: Config, db: Database, w: World, r: RunId, user: UserId, slug: string, input: string)
    returns (m: Life)
    requires Mirrors(db, w) && r !in w.lives && CanStart(cfg, w, user, slug, input)
    ensures Becomes(cfg, w, StartRun(r, user, slug, input), r, m) && m == NewLife(w, user, slug, input)
    ensures m.run == Run(w.directory.users[user].tenant, slug, user, Running, input, None, None)
    ensures m.rows == [] && m.audits == [] && m.driver == AtStep(Caller(user, w.directory), 0, "")
    ensures Mirrors(db.(runs := db.runs[r := m.run], stepRows := db.stepRows[r := []],
                        auditRows := db.auditRows[r := []]),
                    w.(lives := w.lives[r := m]))
  {
    m := NewLife(w, user, slug, input);
  }

  // ---------------------------------------------------------------- the guards, in the handlers' order

  function RefusalFor(cfg: Config, department: string): Response {
    if department !in cfg.agents then UnknownDepartment(department) else MissingPermission(department)
  }

  predicate MayDrive(cfg: Config, d: Directory, user: UserId, step: StepDef) {
    step.department in cfg.agents && Permitted(d, user, PermissionFor(cfg, step.department))
  }

  predicate IsFirstRefused(cfg: Config, d: Directory, user: UserId, steps: seq<StepDef>, start: nat, i: int) {
    && start <= i < |steps| && !MayDrive(cfg, d, user, steps[i])
    && forall j :: start <= j < i ==> MayDrive(cfg, d, user, steps[j])
  }

  /** The permission loop: the first step the caller may not drive decides the refusal. */
  function StepRefusal(cfg: Config, d: Directory, user: UserId, steps: seq<StepDef>, start: nat)
    : (refusal: Option<Response>)
    ensures refusal.None? <==> CanDriveFrom(cfg, d, user, steps, start)
    ensures refusal.Some? ==>
      exists i :: IsFirstRefused(cfg, d, user, steps, start, i) && refusal.value == RefusalFor(cfg, steps[i].department)
    decreases |steps| - start
  {
    if start >= |steps| then None
    else if MayDrive(cfg, d, user, steps[start]) then
      var rest := StepRefusal(cfg, d, user, steps, start + 1);
      assert rest.Some? ==> forall i :: IsFirstRefused(cfg, d, user, steps, start + 1, i) ==>
        IsFirstRefused(cfg, d, user, steps, start, i);
      rest
    else
      assert IsFirstRefused(cfg, d, user, steps, start, start);
      Some(RefusalFor(cfg, steps[start].department))
  }

  function StartRefusal(cfg: Config, d: Directory, user: UserId, slug: string, input: string, limited: bool,
                        asyncRefused: bool): Option<Response> {
    if slug !in cfg.workflows then Some(UnknownWorkflow)
    else if user !in d.users then Some(Unauthorized)
    else if StepRefusal(cfg, d, user, cfg.workflows[slug], 0).Some?
    then StepRefusal(cfg, d, user, cfg.workflows[slug], 0)
    else if limited then Some(RateLimited)
    else if input == "" then Some(InputRequired)
    else if asyncRefused then Some(AsyncDisabled)
    else None
  }

  function ResumeRefusal(cfg: Config, w: World, user: UserId, r: RunId, limited: bool): Option<Response> {
    if user !in w.directory.users then Some(Unauthorized)
    else if r !in w.lives || w.lives[r].run.tenant != w.directory.users[user].tenant then Some(RunNotFound)
    else
      var l := w.lives[r];
      var refused := StepRefusal(cfg, w.directory, user, StepsOf(cfg, l), |l.rows|);
      if l.run.status != Escalated then Some(NotAwaitingApproval(l.run.status))
      else if l.run.pending.None? || !IsApproved(w.approvals, l.run.pending.value) then Some(NotApprovedYet)
      else if refused.Some? then refused
      else if limited then Some(RateLimited)
      else None
  }

  /** A handler goes ahead exactly when the state machine lets the run start, or resume. */
  lemma NothingRefusedExactly(cfg: Config, w: World, user: UserId, slug: string, input: string, r: RunId,
                              limited: bool, asyncRefused: bool)
    ensures StartRefusal(cfg, w.directory, user, slug, input, limited, asyncRefused).None?
      <==> CanStart(cfg, w, user, slug, input) && !limited && !asyncRefused
    ensures ResumeRefusal(cfg, w, user, r, limited).None?
      <==> r in w.lives && CanResume(cfg, w, w.lives[r], user) && !limited
  {
  }

  /** A refused step: the first one whose department is unknown, or whose permission the caller lacks. */
  lemma StepRefusalReads(cfg: Config, d: Directory, user: UserId, steps: seq<StepDef>, start: nat) returns (i: int)
    requires StepRefusal(cfg, d, user, steps, start).Some?
    ensures start <= i < |steps|
    ensures forall j :: start <= j < i ==>
      steps[j].department in cfg.agents && Permitted(d, user, cfg.agents[steps[j].department].capability.permission)
    ensures StepRefusal(cfg, d, user, steps, start) == Some(
      if steps[i].department !in cfg.agents then UnknownDepartment(steps[i].department)
      else MissingPermission(steps[i].department))
    ensures steps[i].department in cfg.agents ==>
      !Permitted(d, user, cfg.agents[steps[i].department].capability.permission)
  {
    var refusal := StepRefusal(cfg, d, user, steps, start);
    i :| IsFirstRefused(cfg, d, user, steps, start, i) && refusal.value == RefusalFor(cfg, steps[i].department);
    assert forall j :: start <= j < i ==> MayDrive(cfg, d, user, steps[j]);
  }

  /** The status 404, 401, 403 or 500, 429, 400, 503 of the run handler, each with its own cause, the earlier
      guards passed. */
  lemma StartRefusalReads(cfg: Config, d: Directory, user: UserId, slug: string, input: string, limited: bool,
                          asyncRefused: bool)
    ensures var refusal := StartRefusal(cfg, d, user, slug, input, limited, asyncRefused);
      && (refusal == Some(UnknownWorkflow) <==> slug !in cfg.workflows)
      && (refusal == Some(Unauthorized) <==> slug in cfg.workflows && user !in d.users)
      && (refusal == Some(RateLimited) <==>
            slug in cfg.workflows && user in d.users && CanDriveFrom(cfg, d, user, cfg.workflows[slug], 0) && limited)
      && (refusal == Some(InputRequired) <==>
            slug in cfg.workflows && user in d.users && CanDriveFrom(cfg, d, user, cfg.workflows[slug], 0)
            && !limited && input == "")
      && (refusal == Some(AsyncDisabled) <==>
            slug in cfg.workflows && user in d.users && CanDriveFrom(cfg, d, user, cfg.workflows[slug], 0)
            && !limited && input != "" && asyncRefused)
    ensures slug in cfg.workflows && user in d.users && !CanDriveFrom(cfg, d, user, cfg.workflows[slug], 0) ==>
      var refused := StepRefusal(cfg, d, user, cfg.workflows[slug], 0);
      StartRefusal(cfg, d, user, slug, input, limited, asyncRefused) == refused
  {
    if slug in cfg.workflows && StepRefusal(cfg, d, user, cfg.workflows[slug], 0).Some? {
      var i := StepRefusalReads(cfg, d, user, cfg.workflows[slug], 0);
    }
  }

  /** Likewise for the resume handler: 401, 404, 409, 409, 403 or 500, 429. */
  lemma ResumeRefusalReads(cfg: Config, w: World, user: UserId, r: RunId, limited: bool)
    ensures ResumeRefusal(cfg, w, user, r, limited) == Some(Unauthorized) <==> user !in w.directory.users
    ensures ResumeRefusal(cfg, w, user, r, limited) == Some(RunNotFound) <==>
      user in w.directory.users && !(r in w.lives && w.lives[r].run.tenant == w.directory.users[user].tenant)
    ensures user in w.directory.users && r in w.lives && w.lives[r].run.tenant == w.directory.users[user].tenant ==>
      var refusal, run := ResumeRefusal(cfg, w, user, r, limited), w.lives[r].run;
      var approved := run.pending.Some? && run.pending.value in w.approvals
                      && w.approvals[run.pending.value].status == Approved;
      var permitted := CanDriveFrom(cfg, w.directory, user, StepsOf(cfg, w.lives[r]), |w.lives[r].rows|);
      && (run.status != Escalated ==> refusal == Some(NotAwaitingApproval(run.status)))
      && (refusal == Some(NotApprovedYet) <==> run.status == Escalated && !approved)
      && (refusal == Some(RateLimited) <==> run.status == Escalated && approved && permitted && limited)
      && (run.status == Escalated && approved && !permitted ==>
            refusal == StepRefusal(cfg, w.directory, user, StepsOf(cfg, w.lives[r]), |w.lives[r].rows|))
  {
    if r in w.lives && StepRefusal(cfg, w.directory, user, StepsOf(cfg, w.lives[r]), |w.lives[r].rows|).Some? {
      var i := StepRefusalReads(cfg, w.directory, user, StepsOf(cfg, w.lives[r]), |w.lives[r].rows|);
    }
  }

  /** How a run's table rows look to the handlers. */
  lemma RowsAreShaped(cfg: Config, d: Directory, es: seq<Event>, w: World, r: RunId)
    requires Exec(cfg, Genesis(d), es) == Some(w) && r in w.lives
    ensures forall i :: 0 <= i < |w.lives[r].rows| ==> w.lives[r].rows[i].index == i
    ensures w.lives[r].run.slug in cfg.workflows && StepsOf(cfg, w.lives[r]) == cfg.workflows[w.lives[r].run.slug]
    ensures |w.lives[r].rows| <= |StepsOf(cfg, w.lives[r])|
  {
    RowShape(cfg, d, es, w, r);
  }

  lemma SlugIsKnown(cfg: Config, d: Directory, es: seq<Event>, w: World, r: RunId)
    requires Exec(cfg, Genesis(d), es) == Some(w) && r in w.lives
    ensures w.lives[r].run.slug in cfg.workflows
  {
    ReachableOnTrack(cfg, d, es, w, r);
  }

  lemma PrefixOfPrefix(a: seq<Event>, b: seq<Event>, c: seq<Event>)
    requires a <= b <= c
    ensures a <= c
  {
  }

  lemma ApprovalsGrowAlong(cfg: Config, d: Directory, es: seq<Event>, w: World, fs: seq<Event>, v: World)
    requires Exec(cfg, Genesis(d), es) == Some(w) && Exec(cfg, Genesis(d), fs) == Some(v) && es <= fs
    ensures ApprovalsGrow(w.approvals, v.approvals)
  {
    var more := fs[|es|..];
    assert fs == es + more;
    ExecSplits(cfg, Genesis(d), es, more);
    DecisionsStand(cfg, w, more, v);
  }

  function Resumed(l: Life): Life {
    l.(run := l.run.(status := Running))
  }

  class Platform {
    const cfg: Config
    const pool: Pool
    ghost const origin: Directory
    var db: Database            // what is committed
    ghost var log: seq<Event>

    constructor (cfg: Config, pool: Pool, directory: Directory)
      ensures Valid() && this.cfg == cfg && this.pool == pool && log == [] && Now() == Genesis(directory)
    {
      this.cfg, this.pool, origin, db, log := cfg, pool, directory, Database(directory, map[], map[], map[], map[]), [];
    }

    ghost function Now(): World
      reads this`log
      requires Exec(cfg, Genesis(origin), log).Some?
    {
      Exec(cfg, Genesis(origin), log).value
    }

    ghost predicate Valid()
      reads this
    {
      Exec(cfg, Genesis(origin), log).Some? && Mirrors(db, Now())
    }

    ghost predicate Driven(r: RunId, d: Driver)
      reads this
    {
      Valid() && r in Now().lives && Now().lives[r].driver == d
    }

    /** Note an event in the history. */
    ghost method Note(e: Event)
      requires Exec(cfg, Genesis(origin), log).Some? && Enabled(cfg, Now(), e)
      modifies this`log
      ensures log == old(log) + [e]
      ensures Exec(cfg, Genesis(origin), log) == Some(Apply(cfg, old(Now()), e))
    {
      assert (log + [e])[..|log + [e]| - 1] == log;
      log := log + [e];
    }

    /** Note an event of run r once the tables hold what it makes of that run. */
    ghost method Happens(e: Event, r: RunId, m: Life)
      requires Exec(cfg, Genesis(origin), log).Some? && Becomes(cfg, Now(), e, r, m)
      requires Mirrors(db, Now().(lives := Now().lives[r := m]))
      modifies this`log
      ensures Valid() && log == old(log) + [e]
      ensures r in Now().lives && Now().lives[r] == m && Now() == old(Now()).(lives := old(Now()).lives[r := m])
    {
      Note(e);
    }

    /** Anything the rest of the platform may do while a driver of run r is waiting. */
    method Elsewhere(r: RunId)
      requires Valid()
      modifies this
      ensures Valid() && old(log) <= log
      ensures forall i :: |old(log)| <= i < |log| ==> Foreign(log[i], r)
    {
    }

    method Await(r: RunId)
      requires Valid() && r in Now().lives
      modifies this
      ensures Valid() && old(log) <= log
      ensures r in Now().lives && Now().lives[r] == old(Now().lives[r])
      ensures ApprovalsGrow(old(db).approvals, db.approvals)
    {
      ghost var before, prefix := Now(), log;
      Elsewhere(r);
      ghost var more := log[|prefix|..];
      assert log == prefix + more;
      ExecSplits(cfg, Genesis(origin), prefix, more);
      OthersLeaveTheRun(cfg, before, more, Now(), r);
      DecisionsStand(cfg, before, more, Now());
    }

    /** `agent.run(prompt)`: the call leaves no table row behind. */
    method AskAgent(r: RunId, index: nat, prompt: string) returns (answer: Answer)
      requires Valid() && r in Now().lives && Enabled(cfg, Now(), Event.AskAgent(r))
      requires index == Now().lives[r].driver.index
      requires var l := Now().lives[r];
        prompt == Ask(cfg, r, StepsOf(cfg, l), l.run.input, index, l.driver.previous).prompt
      modifies this`log
      ensures Valid() && log == old(log) + [Event.AskAgent(r)]
      ensures Now() == Apply(cfg, old(Now()), Event.AskAgent(r))
      ensures answer == cfg.providers(r, index, prompt)
    {
      answer := cfg.providers(r, index, prompt);
      ghost var m := AskingEffect(cfg, db, Now(), r);
      Happens(Event.AskAgent(r), r, m);
    }

    /** Ask the agent of the step the driver stands at, waiting for others before and after. */
    method AskStep(r: RunId, ghost caller: Caller, index: nat, previous: string, department: string, prompt: string)
      returns (x: Exchange)
      requires Driven(r, AtStep(caller, index, previous)) && index < |StepsOf(cfg, Now().lives[r])|
      requires var step := StepsOf(cfg, Now().lives[r])[index];
        department == step.department && prompt == PromptFor(step, Now().lives[r].run.input, previous)
      modifies this
      ensures Driven(r, Answered(caller, x)) && old(log) <= log
      ensures x == Ask(cfg, r, StepsOf(cfg, old(Now().lives[r])), old(Now().lives[r].run.input), index, previous)
      ensures var l := old(Now().lives[r]); var m := Now().lives[r];
        && m.rows == l.rows && m.audits == l.audits && m.notes.filed == l.notes.filed && m.run == l.run
        && m.notes.calls == l.notes.calls + [x]
    {
      Await(r);
      var answer := AskAgent(r, index, prompt);
      x := Exchange(index, department, prompt, answer);
      Await(r);
    }

    /** On a reachable state that answer is the next exchange of the trace. */
    method AskNext(r: RunId, ghost caller: Caller, index: nat, previous: string, department: string, prompt: string)
      returns (x: Exchange)
      requires Driven(r, AtStep(caller, index, previous)) && index < |StepsOf(cfg, Now().lives[r])|
      requires var step := StepsOf(cfg, Now().lives[r])[index];
        department == step.department && prompt == PromptFor(step, Now().lives[r].run.input, previous)
      modifies this
      ensures Driven(r, Answered(caller, x)) && old(log) <= log
      ensures var l := old(Now().lives[r]); var m := Now().lives[r];
        && l.run.slug in cfg.workflows
        && index == |l.rows| < |TraceOf(cfg, r, l.run)|
        && x == TraceOf(cfg, r, l.run)[index] && x.index == index && x.department == department
        && m.rows == l.rows && m.audits == l.audits && m.notes.filed == l.notes.filed && m.run == l.run
    {
      NextCall(cfg, origin, log, Now(), r);
      x := AskStep(r, caller, index, previous, department, prompt);
    }

    /** approval_service.create_approval: its own commit. */
    method CreateApproval(r: RunId, ghost caller: Caller, ghost x: Exchange, uuid: ApprovalId, approval: Approval)
      requires Driven(r, Answered(caller, x)) && x.answer.Reply? && uuid !in db.approvals
      requires PauseReason(cfg, x.department, x.answer.text).Some?
      requires approval == Approval(Now().lives[r].run.tenant, x.department, "agent:" + x.department, Pending, None)
      modifies this
      ensures Driven(r, ApprovalCommitted(caller, x, uuid)) && log == old(log) + [CommitApproval(r, uuid)]
      ensures db.approvals == old(db).approvals[uuid := approval]
      ensures var l := old(Now().lives[r]); var m := Now().lives[r];
        && m.rows == l.rows && m.audits == l.audits && m.run == l.run
        && m.notes.calls == l.notes.calls && m.notes.filed == l.notes.filed + [uuid]
    {
      ghost var m := ApprovalEffect(cfg, db, Now(), r, caller, x, uuid);
      db := db.(approvals := db.approvals[uuid := approval]);
      Note(CommitApproval(r, uuid));
    }

    method RecordAudit(r: RunId, action: AuditAction)
      requires Valid() && r in Now().lives && Now().lives[r].driver.AuditOwed? && Now().lives[r].driver.action == action
      modifies this
      ensures Valid() && log == old(log) + [CommitAudit(r)] && r in Now().lives
      ensures var l := old(Now().lives[r]);
        Now().lives[r] == l.(audits := l.audits + [action], driver := NoDriver)
      ensures db.approvals == old(db).approvals
    {
      ghost var m := AuditEffect(cfg, db, Now(), r);
      db := db.(auditRows := db.auditRows[r := db.auditRows[r] + [action]]);
      Happens(CommitAudit(r), r, m);
    }

    method NewUuid() returns (uuid: ApprovalId)
      ensures uuid !in db.approvals
    {
      uuid := "";
      var keys := db.approvals.Keys;
      while keys != {}
        invariant keys <= db.approvals.Keys
        invariant forall k :: k in db.approvals && k !in keys ==> |k| < |uuid|
        decreases keys
      {
        var k :| k in keys;
        if |k| >= |uuid| {
          uuid := k + "0";
        }
        keys := keys - {k};
      }
    }

    method WriteSuccess(r: RunId, ghost caller: Caller, x: Exchange)
      requires Driven(r, Answered(caller, x)) && x.answer.Reply?
      requires PauseReason(cfg, x.department, x.answer.text).None?
      modifies this
      ensures Driven(r, AtStep(caller, x.index + 1, x.answer.text)) && log == old(log) + [CommitRow(r)]
      ensures var l := old(Now().lives[r]); var m := Now().lives[r];
        m.rows == l.rows + [RowFor(cfg, x)] && m.run == l.run && m.audits == l.audits && m.notes.filed == l.notes.filed
    {
      var row := StepRow(x.index, x.department, Completed, Some(x.answer.text), None, false, None);
      ghost var m := SuccessEffect(cfg, db, Now(), r, caller, x);
      db := db.(stepRows := db.stepRows[r := db.stepRows[r] + [row]]);
      Happens(CommitRow(r), r, m);
    }

    method WriteFailure(r: RunId, ghost caller: Caller, x: Exchange)
      requires Driven(r, Answered(caller, x)) && x.answer.ProvidersFailed?
      modifies this
      ensures Driven(r, AuditOwed(caller, WorkflowFailed)) && log == old(log) + [CommitFailure(r)]
      ensures var l := old(Now().lives[r]); var m := Now().lives[r];
        && m.rows == l.rows + [RowFor(cfg, x)] && m.audits == l.audits && m.notes.filed == l.notes.filed
        && m.run == l.run.(status := Failed, error := Some(FailureText(x.index, x.department, x.answer.error)))
    {
      var error := x.answer.error;
      var row := StepRow(x.index, x.department, Failed, None, Some(error), false, None);
      var run := db.runs[r].(status := Failed, error := Some(FailureText(x.index, x.department, error)));
      ghost var m := FailureEffect(cfg, db, Now(), r, caller, x);
      db := db.(stepRows := db.stepRows[r := db.stepRows[r] + [row]], runs := db.runs[r := run]);
      Happens(CommitFailure(r), r, m);
    }

    method WritePause(r: RunId, ghost caller: Caller, x: Exchange, approval: ApprovalId, reason: string)
      requires Driven(r, ApprovalCommitted(caller, x, approval)) && x.answer.Reply?
      requires PauseReason(cfg, x.department, x.answer.text) == Some(reason)
      modifies this
      ensures Driven(r, AuditOwed(caller, WorkflowEscalated)) && log == old(log) + [CommitEscalation(r)]
      ensures var l := old(Now().lives[r]); var m := Now().lives[r];
        && m.rows == l.rows + [RowFor(cfg, x)] && m.audits == l.audits && m.notes.filed == l.notes.filed
        && m.run == l.run.(status := Escalated, pending := Some(approval))
      ensures db.approvals == old(db).approvals
    {
      var row := StepRow(x.index, x.department, Completed, Some(x.answer.text), None, true, Some(reason));
      var run := db.runs[r].(status := Escalated, pending := Some(approval));
      ghost var m := PauseEffect(cfg, db, Now(), r, caller, x, approval, reason);
      db := db.(stepRows := db.stepRows[r := db.stepRows[r] + [row]], runs := db.runs[r := run]);
      Happens(CommitEscalation(r), r, m);
    }

    /** The except branch: one commit for the failed row and the run, then the audit row. */
    method FinishFailed(r: RunId, ghost caller: Caller, x: Exchange)
      requires Driven(r, Answered(caller, x)) && x.answer.ProvidersFailed?
      modifies this
      ensures Driven(r, NoDriver) && old(log) <= log
      ensures var l := old(Now().lives[r]); var m := Now().lives[r];
        && m.rows == l.rows + [RowFor(cfg, x)] && m.audits == l.audits + [WorkflowFailed]
        && m.notes.filed == l.notes.filed
        && m.run == l.run.(status := Failed, error := Some(FailureText(x.index, x.department, x.answer.error)))
    {
      WriteFailure(r, caller, x);
      Await(r);
      RecordAudit(r, WorkflowFailed);
    }

    /** approval_service.create_approval, called by the step loop. */
    method FileForApproval(r: RunId, ghost caller: Caller, x: Exchange) returns (approval: ApprovalId)
      requires Driven(r, Answered(caller, x)) && x.answer.Reply?
      requires PauseReason(cfg, x.department, x.answer.text).Some?
      modifies this
      ensures Driven(r, ApprovalCommitted(caller, x, approval)) && old(log) <= log
      ensures approval !in old(db).approvals && db.approvals == old(db).approvals[approval :=
                Approval(db.runs[r].tenant, x.department, "agent:" + x.department, Pending, None)]
      ensures var l := old(Now().lives[r]); var m := Now().lives[r];
        && m.rows == l.rows && m.audits == l.audits && m.run == l.run
        && m.notes.calls == l.notes.calls && m.notes.filed == l.notes.filed + [approval]
    {
      approval := NewUuid();
      CreateApproval(r, caller, x, approval,
                     Approval(db.runs[r].tenant, x.department, "agent:" + x.department, Pending, None));
    }

    /** scalar_one() finds nothing: the handler dies of the exception. */
    method Abandon(r: RunId, ghost caller: Caller, ghost x: Exchange, ghost approval: ApprovalId)
      requires Driven(r, ApprovalCommitted(caller, x, approval))
      modifies this`log
      ensures Driven(r, NoDriver) && log == old(log) + [Crash(r)]
      ensures var l := old(Now().lives[r]); var m := Now().lives[r];
        && m.rows == l.rows && m.audits == l.audits && m.run == l.run
        && m.notes.calls == l.notes.calls && m.notes.filed == l.notes.filed
    {
      ghost var m := CrashEffect(cfg, db, Now(), r);
      Happens(Crash(r), r, m);
    }

    /** Row and run in one commit, then the audit row. */
    method RecordPause(r: RunId, ghost caller: Caller, x: Exchange, approval: ApprovalId, reason: string)
      requires Driven(r, ApprovalCommitted(caller, x, approval)) && x.answer.Reply?
      requires PauseReason(cfg, x.department, x.answer.text) == Some(reason)
      modifies this
      ensures Driven(r, NoDriver) && old(log) <= log
      ensures var l := old(Now().lives[r]); var m := Now().lives[r];
        && m.rows == l.rows + [RowFor(cfg, x)] && m.audits == l.audits + [WorkflowEscalated]
        && m.run == l.run.(status := Escalated, pending := Some(approval)) && m.notes.filed == l.notes.filed
      ensures ApprovalsGrow(old(db).approvals, db.approvals)
    {
      WritePause(r, caller, x, approval, reason);
      Await(r);
      RecordAudit(r, WorkflowEscalated);
    }

    method FileAndWait(r: RunId, ghost caller: Caller, x: Exchange) returns (approval: ApprovalId)
      requires Driven(r, Answered(caller, x)) && x.answer.Reply?
      requires PauseReason(cfg, x.department, x.answer.text).Some?
      modifies this
      ensures Driven(r, ApprovalCommitted(caller, x, approval)) && old(log) <= log
      ensures approval !in old(db).approvals && FiledFor(db.approvals, approval, old(db).runs[r].tenant, x.department)
      ensures var l := old(Now().lives[r]); var m := Now().lives[r];
        && m.rows == l.rows && m.audits == l.audits && m.run == l.run
        && m.notes.calls == l.notes.calls && m.notes.filed == l.notes.filed + [approval]
    {
      approval := FileForApproval(r, caller, x);
      Await(r);
    }

    /** The escalation branch: the approval's own commit, then the run read again under whatever settings that
        commit left (`found` if the policy admits it), then row and run, then the audit row. */
    method FinishPaused(r: RunId, ghost caller: Caller, x: Exchange, reason: string, inherited: Session.Settings)
      returns (approval: ApprovalId, found: bool)
      requires Driven(r, Answered(caller, x)) && x.answer.Reply?
      requires PauseReason(cfg, x.department, x.answer.text) == Some(reason)
      modifies this
      ensures Driven(r, NoDriver) && old(log) <= log
      ensures approval !in old(db).approvals && FiledFor(db.approvals, approval, old(db).runs[r].tenant, x.department)
      ensures Now().lives[r].notes.filed == old(Now().lives[r]).notes.filed + [approval]
      ensures found <==> Session.Admits(inherited, RunRow(r, old(db).runs[r].tenant))
      ensures var l := old(Now().lives[r]); var m := Now().lives[r]; found ==>
        && m.rows == l.rows + [RowFor(cfg, x)] && m.audits == l.audits + [WorkflowEscalated]
        && m.run == l.run.(status := Escalated, pending := Some(approval))
      ensures var l := old(Now().lives[r]); var m := Now().lives[r]; !found ==>
        m.rows == l.rows && m.audits == l.audits && m.run == l.run && m.notes.calls == l.notes.calls
    {
      approval := FileAndWait(r, caller, x);
      found := Session.Admits(inherited, RunRow(r, db.runs[r].tenant));
      if found {
        RecordPause(r, caller, x, approval, reason);
      } else {
        Abandon(r, caller, x, approval);
      }
    }

    method WriteCompletion(r: RunId, ghost caller: Caller, ghost index: nat, ghost previous: string)
      requires Driven(r, AtStep(caller, index, previous)) && index >= |StepsOf(cfg, Now().lives[r])|
      modifies this
      ensures Driven(r, AuditOwed(caller, WorkflowCompleted)) && log == old(log) + [CommitCompletion(r)]
      ensures var l := old(Now().lives[r]); var m := Now().lives[r];
        && m.rows == l.rows && m.audits == l.audits && m.notes.filed == l.notes.filed
        && m.run == l.run.(status := Completed, pending := None)
    {
      ghost var m := CompletionEffect(cfg, db, Now(), r, caller);
      db := db.(runs := db.runs[r := db.runs[r].(status := Completed, pending := None)]);
      Happens(CommitCompletion(r), r, m);
    }

    method FinishDone(r: RunId, ghost caller: Caller, ghost index: nat, ghost previous: string)
      requires Driven(r, AtStep(caller, index, previous)) && index >= |StepsOf(cfg, Now().lives[r])|
      modifies this
      ensures Driven(r, NoDriver) && old(log) <= log
      ensures var l := old(Now().lives[r]); var m := Now().lives[r];
        && m.rows == l.rows && m.run == l.run.(status := Completed, pending := None)
        && m.audits == l.audits + [WorkflowCompleted] && m.notes.filed == l.notes.filed
    {
      WriteCompletion(r, caller, index, previous);
      Await(r);
      RecordAudit(r, WorkflowCompleted);
    }

    /** The driver has its answer to the next call of the trace. */
    ghost predicate Answering(r: RunId, caller: Caller, before: Life, x: Exchange, results: seq<StepResult>)
      reads this
    {
      && Driven(r, Answered(caller, x)) && x.index == |Now().lives[r].rows|
      && Underway(cfg, r, before, Now().lives[r], results)
      && x.index < |TraceOf(cfg, r, before.run)| && x == TraceOf(cfg, r, before.run)[x.index]
    }

    method StopOnFailure(r: RunId, ghost caller: Caller, ghost before: Life, x: Exchange, results: seq<StepResult>)
      returns (outcome: Outcome)
      requires Answering(r, caller, before, x, results) && x.answer.ProvidersFailed?
      modifies this
      ensures Driven(r, NoDriver) && old(log) <= log && outcome.FailedAt?
      ensures DroveToFirstStop(cfg, pool, r, before, Now().lives[r], outcome)
    {
      ghost var l := Now().lives[r];
      FinishFailed(r, caller, x);
      EndsFailed(cfg, pool, origin, log, Now(), r, before, l, results);
      outcome := FailedAt(x.department, x.answer.error, results);
    }

    method StopOnPause(r: RunId, ghost caller: Caller, ghost before: Life, x: Exchange, results: seq<StepResult>,
                       reason: string)
      returns (outcome: Outcome)
      requires Answering(r, caller, before, x, results) && x.answer.Reply?
      requires PauseReason(cfg, x.department, x.answer.text) == Some(reason)
      modifies this
      ensures Driven(r, NoDriver) && old(log) <= log
      ensures DroveToFirstStop(cfg, pool, r, before, Now().lives[r], outcome)
      ensures FiledFresh(outcome, before.run.tenant, old(db).approvals, db.approvals)
    {
      ghost var l := Now().lives[r];
      ReachableOnTrack(cfg, origin, log, Now(), r);
      var approval, found := FinishPaused(r, caller, x, reason, pool(r, x.index));
      outcome := PauseOutcome(x, approval, reason, results, found);
      EndsAtPause(cfg, pool, origin, log, Now(), r, before, l, results, approval, reason, found);
    }

    method GoOn(r: RunId, ghost caller: Caller, ghost before: Life, x: Exchange, results: seq<StepResult>)
      returns (stepResults: seq<StepResult>)
      requires Answering(r, caller, before, x, results) && x.answer.Reply?
      requires PauseReason(cfg, x.department, x.answer.text).None?
      modifies this
      ensures Driven(r, AtStep(caller, x.index + 1, x.answer.text)) && old(log) <= log
      ensures Underway(cfg, r, before, Now().lives[r], stepResults)
    {
      ghost var l := Now().lives[r];
      WriteSuccess(r, caller, x);
      GoesOn(cfg, r, before, l, Now().lives[r], results);
      stepResults := results + [StepResult(x.department, x.answer.text, false)];
    }

    /** What the loop does with an answer: stop on a failure or a pause, else record the row and go on. */
    method React(r: RunId, ghost caller: Caller, ghost before: Life, x: Exchange, results: seq<StepResult>)
      returns (ended: Option<Outcome>, stepResults: seq<StepResult>)
      requires Answering(r, caller, before, x, results)
      modifies this
      ensures old(log) <= log
      ensures ended.Some? ==> Driven(r, NoDriver) && DroveToFirstStop(cfg, pool, r, before, Now().lives[r], ended.value)
      ensures ended.Some? ==> FiledFresh(ended.value, before.run.tenant, old(db).approvals, db.approvals)
      ensures ended.None? ==> x.answer.Reply? && Driven(r, AtStep(caller, x.index + 1, x.answer.text))
                              && Underway(cfg, r, before, Now().lives[r], stepResults)
    {
      if x.answer.ProvidersFailed? {
        var failed := StopOnFailure(r, caller, before, x, results);
        return Some(failed), results;
      }
      var reason := PauseReason(cfg, x.department, x.answer.text);
      if reason.Some? {
        var paused := StopOnPause(r, caller, before, x, results, reason.value);
        return Some(paused), results;
      }
      stepResults := GoOn(r, caller, before, x, results);
      return None, stepResults;
    }

    /** The call of a turn, with the awaits around it. */
    method AskInTurn(r: RunId, ghost caller: Caller, ghost before: Life, step: StepDef, inputPrompt: string,
                     index: nat, previous: string, ghost results: seq<StepResult>,
                     ghost start: seq<Event>, ghost was: map<ApprovalId, Approval>)
      returns (x: Exchange)
      requires Driven(r, AtStep(caller, index, previous)) && index < |StepsOf(cfg, Now().lives[r])|
      requires step == StepsOf(cfg, Now().lives[r])[index] && inputPrompt == before.run.input
      requires Underway(cfg, r, before, Now().lives[r], results) && ApprovalsGrow(was, db.approvals)
      requires start <= log
      modifies this
      ensures Answering(r, caller, before, x, results) && x.index == index
      ensures start <= log && ApprovalsGrow(was, db.approvals)
    {
      ghost var l, w, prefix := Now().lives[r], Now(), log;
      x := AskNext(r, caller, index, previous, step.department, PromptFor(step, inputPrompt, previous));
      StillUnderway(cfg, r, before, l, Now().lives[r], results);
      PrefixOfPrefix(start, prefix, log);
      ApprovalsGrowAlong(cfg, origin, prefix, w, log, Now());
    }

    method ReactInTurn(r: RunId, ghost caller: Caller, ghost before: Life, x: Exchange, results: seq<StepResult>,
                       ghost index: nat, ghost start: seq<Event>, ghost was: map<ApprovalId, Approval>)
      returns (ended: Option<Outcome>, stepResults: seq<StepResult>, output: string)
      requires Answering(r, caller, before, x, results) && x.index == index && ApprovalsGrow(was, db.approvals)
      requires start <= log
      modifies this
      ensures start <= log && ApprovalsGrow(was, db.approvals)
      ensures ended.Some? ==> Driven(r, NoDriver) && DroveToFirstStop(cfg, pool, r, before, Now().lives[r], ended.value)
      ensures ended.Some? ==> FiledFresh(ended.value, before.run.tenant, was, db.approvals)
      ensures ended.None? ==> Driven(r, AtStep(caller, index + 1, output))
      ensures ended.None? ==> Underway(cfg, r, before, Now().lives[r], stepResults)
    {
      ghost var w, prefix := Now(), log;
      ended, stepResults := React(r, caller, before, x, results);
      PrefixOfPrefix(start, prefix, log);
      ApprovalsGrowAlong(cfg, origin, prefix, w, log, Now());
      output := if x.answer.Reply? then x.answer.text else "";
    }

    /** One turn of the loop. */
    method Turn(r: RunId, ghost caller: Caller, ghost before: Life, step: StepDef, inputPrompt: string,
                index: nat, previous: string, results: seq<StepResult>,
                ghost start: seq<Event>, ghost was: map<ApprovalId, Approval>)
      returns (ended: Option<Outcome>, stepResults: seq<StepResult>, output: string)
      requires Driven(r, AtStep(caller, index, previous)) && index < |StepsOf(cfg, Now().lives[r])|
      requires step == StepsOf(cfg, Now().lives[r])[index] && inputPrompt == before.run.input
      requires Underway(cfg, r, before, Now().lives[r], results)
      requires ApprovalsGrow(was, db.approvals)
      requires start <= log
      modifies this
      ensures start <= log && ApprovalsGrow(was, db.approvals)
      ensures ended.Some? ==> Driven(r, NoDriver) && DroveToFirstStop(cfg, pool, r, before, Now().lives[r], ended.value)
      ensures ended.Some? ==> FiledFresh(ended.value, before.run.tenant, was, db.approvals)
      ensures ended.None? ==> Driven(r, AtStep(caller, index + 1, output))
      ensures ended.None? ==> Underway(cfg, r, before, Now().lives[r], stepResults)
    {
      var x := AskInTurn(r, caller, before, step, inputPrompt, index, previous, results, start, was);
      ended, stepResults, output := ReactInTurn(r, caller, before, x, results, index, start, was);
    }

    /** The loop ran out of steps. */
    method Conclude(r: RunId, ghost caller: Caller, ghost before: Life, ghost index: nat, ghost previous: string,
                    results: seq<StepResult>)
      returns (outcome: Outcome)
      requires Driven(r, AtStep(caller, index, previous)) && index >= |StepsOf(cfg, Now().lives[r])|
      requires Underway(cfg, r, before, Now().lives[r], results)
      modifies this
      ensures Driven(r, NoDriver) && old(log) <= log
      ensures DroveToFirstStop(cfg, pool, r, before, Now().lives[r], outcome)
      ensures outcome.AllDone?
    {
      Await(r);
      ghost var last := Now().lives[r];
      FinishDone(r, caller, index, previous);
      EndsDone(cfg, pool, origin, log, Now(), r, before, last, results);
      outcome := AllDone(results);
    }

    /** The step loop. */
    method RunWorkflowFromStep(r: RunId, ghost caller: Caller, slug: string, inputPrompt: string,
                               startIndex: nat, previous: string)
      returns (outcome: Outcome)
      requires Driven(r, AtStep(caller, startIndex, previous))
      requires slug in cfg.workflows && Now().lives[r].run.slug == slug && Now().lives[r].run.input == inputPrompt
      modifies this
      ensures Driven(r, NoDriver) && old(log) <= log
      ensures DroveToFirstStop(cfg, pool, r, old(Now().lives[r]), Now().lives[r], outcome)
      ensures FiledFresh(outcome, old(Now().lives[r]).run.tenant, old(db).approvals, db.approvals)
    {
      ghost var before, start, was := Now().lives[r], log, db.approvals;
      StartsAtItsRows(cfg, origin, log, Now(), r);
      var steps := cfg.workflows[slug];
      var previousOutput := previous;
      var stepResults: seq<StepResult> := [];
      for index := startIndex to |steps|
        invariant Driven(r, AtStep(caller, index, previousOutput)) && start <= log
        invariant Underway(cfg, r, before, Now().lives[r], stepResults) && ApprovalsGrow(was, db.approvals)
      {
        var ended: Option<Outcome>;
        ended, stepResults, previousOutput :=
          Turn(r, caller, before, steps[index], inputPrompt, index, previousOutput, stepResults, start, was);
        if ended.Some? {
          return ended.value;
        }
      }
      outcome := Conclude(r, caller, before, |steps|, previousOutput, stepResults);
    }

    /** The up-front permission loop. */
    method CheckSteps(user: UserId, steps: seq<StepDef>, start: nat) returns (refusal: Option<Response>)
      requires start <= |steps|
      ensures refusal == StepRefusal(cfg, db.directory, user, steps, start)
    {
      for i := start to |steps|
        invariant StepRefusal(cfg, db.directory, user, steps, start) == StepRefusal(cfg, db.directory, user, steps, i)
      {
        var department := steps[i].department;
        if department !in cfg.agents {
          return Some(UnknownDepartment(department));
        }
        if !Permitted(db.directory, user, PermissionFor(cfg, department)) {
          return Some(MissingPermission(department));
        }
      }
      return None;
    }

    /** SELECT ... WHERE run_id = r ORDER BY step_index: some ordering of the table's rows. */
    method SelectSteps(r: RunId) returns (loaded: seq<StepRow>)
      requires Valid() && r in db.runs
      ensures multiset(loaded) == multiset(db.stepRows[r]) && OrderedByIndex(loaded)
    {
      RowsAreShaped(cfg, origin, log, Now(), r);
      loaded := db.stepRows[r];
    }

    /** POST .../workflows/{slug}/run. `limited` is the rate limiter's refusal, `newRun` the run's new UUID. A
        queued run stands before its first step until a worker calls RunWorkflowFromStep on it. */
    method RunWorkflow(user: UserId, slug: string, inputPrompt: string, limited: bool, runAsync: bool,
                       asyncEnabled: bool, newRun: RunId)
      returns (response: Response)
      requires Valid() && newRun !in db.runs
      modifies this
      ensures Valid() && old(log) <= log
      ensures var refused := runAsync && !asyncEnabled;
              var refusal := StartRefusal(cfg, old(db).directory, user, slug, inputPrompt, limited, refused);
        && (refusal.Some? ==> response == refusal.value && log == old(log) && Now() == old(Now()))
        && (refusal.None? ==> if runAsync then response.Queued? else response.Ran?)
        && (refusal.None? ==> CanStart(cfg, old(Now()), user, slug, inputPrompt) && newRun in Now().lives)
      ensures response.Queued? ==> Now().lives[newRun] == NewLife(old(Now()), user, slug, inputPrompt)
      ensures response.Ran? ==> Driven(newRun, NoDriver)
      ensures response.Ran? ==>
        DroveToFirstStop(cfg, pool, newRun, NewLife(old(Now()), user, slug, inputPrompt), Now().lives[newRun],
                         response.outcome)
      ensures response.Ran? ==>
        FiledFresh(response.outcome, old(db).directory.users[user].tenant, old(db).approvals, db.approvals)
    {
      if slug !in cfg.workflows {
        return UnknownWorkflow;
      }
      if user !in db.directory.users {
        return Unauthorized;
      }
      var refusal := CheckSteps(user, cfg.workflows[slug], 0);
      if refusal.Some? {
        return refusal.value;
      }
      if limited {
        return RateLimited;
      }
      if inputPrompt == "" {
        return InputRequired;
      }
      if runAsync && !asyncEnabled {
        return AsyncDisabled;
      }
      InsertRun(user, slug, inputPrompt, newRun);
      if runAsync {
        return Queued;
      }
      var outcome := RunWorkflowFromStep(newRun, Caller(user, db.directory), slug, inputPrompt, 0, "");
      return Ran(outcome);
    }

    method InsertRun(user: UserId, slug: string, inputPrompt: string, newRun: RunId)
      requires Valid() && newRun !in db.runs && CanStart(cfg, Now(), user, slug, inputPrompt)
      modifies this
      ensures Valid() && db.directory == old(db).directory
      ensures log == old(log) + [StartRun(newRun, user, slug, inputPrompt)]
      ensures newRun in Now().lives && Now().lives[newRun] == NewLife(old(Now()), user, slug, inputPrompt)
      ensures db.approvals == old(db).approvals
    {
      ghost var m := StartEffect(cfg, db, Now(), newRun, user, slug, inputPrompt);
      var run := Run(db.directory.users[user].tenant, slug, user, Running, inputPrompt, None, None);
      db := db.(runs := db.runs[newRun := run], stepRows := db.stepRows[newRun := []],
                auditRows := db.auditRows[newRun := []]);
      Happens(StartRun(newRun, user, slug, inputPrompt), newRun, m);
    }

    /** The resume handler's first session and permission loop: either a refusal, or where to go on from. */
    method PlanResume(user: UserId, r: RunId)
      returns (refusal: Option<Response>, nextIndex: nat, previousOutput: string)
      requires Valid()
      ensures refusal == ResumeRefusal(cfg, Now(), user, r, false)
      ensures refusal.None? ==>
        r in db.runs && nextIndex == |db.stepRows[r]| && previousOutput == LastOutput(db.stepRows[r])
    {
      nextIndex, previousOutput := 0, "";
      if user !in db.directory.users {
        return Some(Unauthorized), 0, "";
      }
      if r !in db.runs || db.runs[r].tenant != db.directory.users[user].tenant {
        return Some(RunNotFound), 0, "";
      }
      if db.runs[r].status != Escalated {
        return Some(NotAwaitingApproval(db.runs[r].status)), 0, "";
      }
      PendingIdIsMeaningful(cfg, origin, log, Now(), r);
      if db.runs[r].pending.None? || !IsApproved(db.approvals, db.runs[r].pending.value) {
        return Some(NotApprovedYet), 0, "";
      }
      var completedSteps := SelectSteps(r);
      RowsAreShaped(cfg, origin, log, Now(), r);
      OrderByIsTheTable(completedSteps, db.stepRows[r]);
      nextIndex := |completedSteps|;
      previousOutput := LastOutput(completedSteps);
      var steps := cfg.workflows[db.runs[r].slug];
      refusal := CheckSteps(user, steps, nextIndex);
    }

    /** POST .../workflows/runs/{r}/resume, while no other driver holds the run. */
    method ResumeWorkflow(user: UserId, r: RunId, limited: bool) returns (response: Response)
      requires Valid() && (r in db.runs ==> Now().lives[r].driver.NoDriver?)
      modifies this
      ensures Valid() && old(log) <= log
      ensures var refusal := ResumeRefusal(cfg, old(Now()), user, r, limited);
        && (refusal.Some? ==> response == refusal.value && log == old(log) && Now() == old(Now()))
        && (refusal.None? ==>
          response.Ran? && r in old(db).runs && CanResume(cfg, old(Now()), old(Now()).lives[r], user))
      ensures response.Ran? ==> Driven(r, NoDriver) && r in old(db).runs
      ensures response.Ran? ==>
        DroveToFirstStop(cfg, pool, r, Resumed(old(Now()).lives[r]), Now().lives[r], response.outcome)
      ensures response.Ran? ==> FiledFresh(response.outcome, old(db).runs[r].tenant, old(db).approvals, db.approvals)
    {
      var refusal, nextIndex, previousOutput := PlanResume(user, r);
      if refusal.Some? {
        return refusal.value;
      }
      if limited {
        return RateLimited;
      }
      NothingRefusedExactly(cfg, Now(), user, "", "", r, limited, false);
      var outcome := Continue(user, r, nextIndex, previousOutput);
      return Ran(outcome);
    }

    /** The second session, then the step loop. */
    method Continue(user: UserId, r: RunId, nextIndex: nat, previousOutput: string) returns (outcome: Outcome)
      requires Valid() && r in db.runs && Now().lives[r].driver.NoDriver? && CanResume(cfg, Now(), Now().lives[r], user)
      requires nextIndex == |db.stepRows[r]| && previousOutput == LastOutput(db.stepRows[r])
      modifies this
      ensures Driven(r, NoDriver) && old(log) <= log
      ensures DroveToFirstStop(cfg, pool, r, Resumed(old(Now()).lives[r]), Now().lives[r], outcome)
      ensures FiledFresh(outcome, old(db).runs[r].tenant, old(db).approvals, db.approvals)
    {
      ghost var caller, before := Caller(user, db.directory), Resumed(Now().lives[r]);
      ghost var w, prefix := Now(), log;
      MarkRunning(r, user);
      ApprovalsGrowAlong(cfg, origin, prefix, w, log, Now());
      ghost var start := Now().lives[r];
      SlugIsKnown(cfg, origin, log, Now(), r);
      outcome := RunWorkflowFromStep(r, caller, db.runs[r].slug, db.runs[r].input, nextIndex, previousOutput);
      SameStart(cfg, pool, r, before, start, Now().lives[r], outcome);
    }

    /** The checks of the first session leave nothing in the tables but the handler knows where to go on. */
    ghost method PassChecks(r: RunId, user: UserId)
      requires Valid() && r in db.runs && Now().lives[r].driver.NoDriver? && CanResume(cfg, Now(), Now().lives[r], user)
      modifies this`log
      ensures Valid() && log == old(log) + [CheckResume(r, user)] && r in Now().lives
      ensures var l := old(Now()).lives[r];
        Now().lives[r] == l.(driver := ResumeChecked(Caller(user, db.directory), |l.rows|, LastOutput(l.rows)))
    {
      ghost var m := CheckEffect(cfg, db, Now(), r, user);
      Happens(CheckResume(r, user), r, m);
    }

    method WriteResume(r: RunId)
      requires Valid() && r in Now().lives && Now().lives[r].driver.ResumeChecked?
      modifies this
      ensures Valid() && log == old(log) + [CommitResume(r)] && r in Now().lives
      ensures var l := old(Now()).lives[r]; var m := Now().lives[r];
        && m.rows == l.rows && m.audits == l.audits && m.notes.filed == l.notes.filed
        && m.run == l.run.(status := Running)
        && m.driver == AtStep(l.driver.caller, l.driver.index, l.driver.previous)
    {
      ghost var m := ResumeEffect(cfg, db, Now(), r);
      db := db.(runs := db.runs[r := db.runs[r].(status := Running)]);
      Happens(CommitResume(r), r, m);
    }

    /** The handler's second session: run.status = RUNNING, committed. */
    method MarkRunning(r: RunId, user: UserId)
      requires Valid() && r in db.runs && Now().lives[r].driver.NoDriver? && CanResume(cfg, Now(), Now().lives[r], user)
      modifies this
      ensures old(log) <= log
      ensures Driven(r, AtStep(Caller(user, old(db).directory), |old(db.stepRows[r])|, LastOutput(old(db.stepRows[r]))))
      ensures var l := old(Now()).lives[r]; var m := Now().lives[r];
        && m.rows == l.rows && m.audits == l.audits && m.notes.filed == l.notes.filed
        && m.run == l.run.(status := Running)
    {
      PassChecks(r, user);
      Await(r);
      WriteResume(r);
    }

    /** POST .../approvals/{a}/decide with an already trimmed decision: written at most once. */
    method DecideApproval(user: UserId, a: ApprovalId, decision: string) returns (verdict: Verdict)
      requires Valid() && user in db.directory.users
      modifies this
      ensures Valid() && old(log) <= log
      ensures verdict ==
        if !(old(db).directory.users[user].tenantOwner || old(db).directory.users[user].platformAdmin) then Forbidden
        else if decision != "approved" && decision != "rejected" then BadDecision
        else if a !in old(db).approvals || old(db).approvals[a].tenant != old(db).directory.users[user].tenant
        then ApprovalNotFound
        else if old(db).approvals[a].status != Pending then AlreadyDecided(old(db).approvals[a].status)
        else Verdict.Recorded
      ensures !verdict.Recorded? ==> db.approvals == old(db).approvals && log == old(log)
      ensures verdict.Recorded? ==> db.approvals.Keys == old(db).approvals.Keys && a in db.approvals
      ensures verdict.Recorded? ==>
        && db.approvals[a].status == (if decision == "approved" then Approved else Rejected)
        && db.approvals[a].decidedBy == Some(user) && ApprovalGrows(old(db).approvals[a], db.approvals[a])
        && log == old(log) + [Decide(a, user, decision == "approved")]
      ensures forall b :: b in old(db).approvals && b != a ==>
        b in db.approvals && db.approvals[b] == old(db).approvals[b]
      ensures db.runs == old(db).runs && db.stepRows == old(db).stepRows && db.auditRows == old(db).auditRows
      ensures db.directory == old(db).directory
    {
      if !MayDecide(db.directory.users[user]) {
        return Forbidden;
      }
      if decision != "approved" && decision != "rejected" {
        return BadDecision;
      }
      if a !in db.approvals || db.approvals[a].tenant != db.directory.users[user].tenant {
        return ApprovalNotFound;
      }
      var approval := db.approvals[a];
      if approval.status != Pending {
        return AlreadyDecided(approval.status);
      }
      approval := approval.(status := if decision == "approved" then Approved else Rejected);
      approval := approval.(decidedBy := Some(user));
      db := db.(approvals := db.approvals[a := approval]);
      Note(Decide(a, user, decision == "approved"));
      return Verdict.Recorded;
    }
  }
}
