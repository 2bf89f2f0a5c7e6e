/** What a reachable state's calls, rows, decisions and runs say, in plain terms: what was asked, what each row
    records of the answer, who accepted what, whose run it is. (app/workflows/executor.py:69-165,
    app/approvals/router.py:87-114, app/workflows/router.py:86-95) */
module RunRecords {
  import opened Common
  import Agents
  import opened Rbac
  import opened Workflow
  import opened Engine
  import opened EngineTheorems

  // ---------------------------------------------------------------- prompts

  function Joined(parts: seq<string>): string {
    if parts == [] then "" else parts[0] + Joined(parts[1..])
  }

  lemma {:induction false} TemplateParts(template: seq<Piece>, input: string, previous: string)
    returns (parts: seq<string>)
    ensures |parts| == |template| && Fill(template, input, previous) == Joined(parts)
    ensures forall j :: 0 <= j < |parts| ==>
      && (template[j].Words? ==> parts[j] == template[j].text)
      && (template[j].InputSlot? ==> parts[j] == input)
      && (template[j].PreviousSlot? ==> parts[j] == previous)
    decreases |template|
  {
    if template == [] {
      parts := [];
    } else {
      var rest := TemplateParts(template[1..], input, previous);
      var part := match template[0] case Words(t) => t case InputSlot => input case PreviousSlot => previous;
      parts := [part] + rest;
      assert parts[1..] == rest;
      assert forall j :: 1 <= j < |template| ==> template[j] == template[1..][j - 1] && parts[j] == rest[j - 1];
    }
  }

  /** Call i of a run is for step i of its workflow: it goes to that step's department, its answer is the
      provider's for this very prompt, and the prompt is the template with {input} replaced by the run's input and
      {previous} by the reply before it, or by "(no prior step)" if there is none or it is empty. */
  lemma PromptReadsItsTemplate(cfg: Config, d: Directory, es: seq<Event>, w: World, r: RunId, i: nat)
    returns (parts: seq<string>)
    requires Exec(cfg, Genesis(d), es) == Some(w) && r in w.lives && i < |w.lives[r].notes.calls|
    ensures w.lives[r].run.slug in cfg.workflows && i < |cfg.workflows[w.lives[r].run.slug]|
    ensures i > 0 ==> w.lives[r].notes.calls[i - 1].answer.Reply?
    ensures var x := w.lives[r].notes.calls[i]; var step := cfg.workflows[w.lives[r].run.slug][i];
      && x.index == i && x.department == step.department && x.answer == cfg.providers(r, i, x.prompt)
      && |parts| == |step.template| && x.prompt == Joined(parts)
    ensures var template := cfg.workflows[w.lives[r].run.slug][i].template;
      forall j :: 0 <= j < |parts| ==>
        && (template[j].Words? ==> parts[j] == template[j].text)
        && (template[j].InputSlot? ==> parts[j] == w.lives[r].run.input)
        && (template[j].PreviousSlot? ==>
              parts[j] == if i == 0 || w.lives[r].notes.calls[i - 1].answer.text == "" then "(no prior step)"
                          else w.lives[r].notes.calls[i - 1].answer.text)
  {
    ReachableOnTrack(cfg, d, es, w, r);
    var l := w.lives[r];
    var steps, trace := cfg.workflows[l.run.slug], TraceOf(cfg, r, l.run);
    TraceIsChained(cfg, r, l.run);
    assert Linked(cfg, r, steps, l.run.input, trace, i);
    var previous := Handed(trace, i);
    parts := TemplateParts(steps[i].template, l.run.input, if previous == "" then "(no prior step)" else previous);
  }

  // ---------------------------------------------------------------- rows

  /** Row i records the answer to call i: an AI text as COMPLETED output, a failure of all providers as FAILED with
      its error, and nothing else. */
  lemma RowRecordsItsAnswer(cfg: Config, d: Directory, es: seq<Event>, w: World, r: RunId, i: nat)
    requires Exec(cfg, Genesis(d), es) == Some(w) && r in w.lives && i < |w.lives[r].rows|
    ensures i < |w.lives[r].notes.calls|
    ensures var row := w.lives[r].rows[i]; var x := w.lives[r].notes.calls[i];
      && row.index == i && row.department == x.department
      && (x.answer.Reply? ==> row.status == Completed && row.output == Some(x.answer.text) && row.error.None?)
      && (x.answer.ProvidersFailed? ==> row.status == Failed && row.output.None? && row.error == Some(x.answer.error))
      && (row.escalated <==> row.reason.Some?) && (x.answer.ProvidersFailed? ==> !row.escalated)
  {
    ResumeIsTransparent(cfg, d, es, w, r);
    EachStepAskedAtMostOnce(cfg, d, es, w, r);
  }

  predicate IsFirst(rules: seq<Agents.Rule>, k: int, text: string) {
    0 <= k < |rules| && Agents.Fires(rules[k], text) && forall j :: 0 <= j < k ==> !Agents.Fires(rules[j], text)
  }

  /** A row is escalated exactly when its department's agent has a rule that fires on the reply alone, for the
      condition of the first such rule. The executive office, judged by flags no workflow sets, never is. */
  lemma RowEscalatesExactly(cfg: Config, d: Directory, es: seq<Event>, w: World, r: RunId, i: nat)
    requires Exec(cfg, Genesis(d), es) == Some(w) && r in w.lives && i < |w.lives[r].rows|
    ensures var row := w.lives[r].rows[i];
      && (row.department !in cfg.agents ==> !row.escalated)
      && (row.department in cfg.agents && cfg.agents[row.department].ExecutiveOffice? ==> !row.escalated)
    ensures var row := w.lives[r].rows[i];
      row.output.Some? && row.department in cfg.agents && cfg.agents[row.department].DataDriven? ==>
        var rules := cfg.agents[row.department].capability.rules; var text := row.output.value;
        && (row.escalated <==> exists k :: 0 <= k < |rules| && Agents.Fires(rules[k], text))
        && (row.escalated ==>
              exists k :: 0 <= k < |rules| && IsFirst(rules, k, text) && row.reason == Some(rules[k].condition))
  {
    ResumeIsTransparent(cfg, d, es, w, r);
    RowRecordsItsAnswer(cfg, d, es, w, r, i);
    var x := TraceOf(cfg, r, w.lives[r].run)[i];
    if x.answer.Reply? && x.department in cfg.agents && cfg.agents[x.department].DataDriven? {
      var rules := cfg.agents[x.department].capability.rules;
      var found := Agents.FirstMatch(rules, x.answer.text);
      assert found.Some? ==> IsFirst(rules, found.value, x.answer.text);
    }
  }

  /** The error text of a FAILED run names its last row's step, department and error; no other run has one. */
  predicate ErrorReads(l: Life) {
    if l.run.status == Failed then
      && |l.rows| > 0
      && var row := l.rows[|l.rows| - 1];
         && row.error.Some?
         && l.run.error == Some("Step " + Decimal(row.index) + " (" + row.department + ") failed: " + row.error.value)
    else l.run.error.None?
  }

  lemma StepKeepsError(cfg: Config, w: World, l: Life, e: Event)
    requires IsRunEvent(e) && CanLife(cfg, w, l, e) && OnTrack(cfg, e.run, l) && ErrorReads(l)
    ensures ErrorReads(LifeAfter(cfg, w, l, e))
  {
  }

  lemma {:induction false} ErrorAlwaysReads(cfg: Config, d: Directory, es: seq<Event>, w: World, r: RunId)
    requires Exec(cfg, Genesis(d), es) == Some(w) && r in w.lives
    ensures ErrorReads(w.lives[r])
    decreases |es|
  {
    var u, e := Exec(cfg, Genesis(d), es[..|es| - 1]).value, es[|es| - 1];
    ApplyOnlyGrows(cfg, u, e);
    OnlyStartsAddRuns(cfg, u, e);
    if r in u.lives {
      ErrorAlwaysReads(cfg, d, es[..|es| - 1], u, r);
      if IsRunEvent(e) && e.run == r {
        ReachableOnTrack(cfg, d, es[..|es| - 1], u, r);
        StepKeepsError(cfg, u, u.lives[r], e);
      }
    }
  }

  lemma FailedRunNamesItsStep(cfg: Config, d: Directory, es: seq<Event>, w: World, r: RunId)
    requires Exec(cfg, Genesis(d), es) == Some(w) && r in w.lives
    ensures w.lives[r].run.status != Failed ==> w.lives[r].run.error.None?
    ensures w.lives[r].run.status == Failed ==> w.lives[r].rows != []
    ensures w.lives[r].run.status == Failed ==>
      var row := w.lives[r].rows[|w.lives[r].rows| - 1];
      row.error.Some? && w.lives[r].run.error
        == Some("Step " + Decimal(row.index) + " (" + row.department + ") failed: " + row.error.value)
  {
    ErrorAlwaysReads(cfg, d, es, w, r);
  }

  // ---------------------------------------------------------------- decisions

  /** Somebody was recorded as having decided the approval this way. */
  ghost predicate WasDecided(es: seq<Event>, a: ApprovalId, accept: bool) {
    exists j :: 0 <= j < |es| && es[j].Decide? && es[j].approval == a && es[j].accept == accept
  }

  lemma WasDecidedNext(es: seq<Event>, a: ApprovalId, accept: bool)
    requires es != []
    ensures var e := es[|es| - 1];
      WasDecided(es, a, accept)
      <==> WasDecided(es[..|es| - 1], a, accept) || (e.Decide? && e.approval == a && e.accept == accept)
  {
    var n := |es| - 1;
    if WasDecided(es[..n], a, accept) {
      var j :| 0 <= j < n && es[..n][j].Decide? && es[..n][j].approval == a && es[..n][j].accept == accept;
      assert es[j] == es[..n][j];
    }
    if j :| 0 <= j < n && es[j].Decide? && es[j].approval == a && es[j].accept == accept {
      assert es[..n][j] == es[j];
    }
  }

  /** In every reachable state an approval is APPROVED if and only if somebody accepted it, REJECTED if and only
      if somebody refused it, and so PENDING if and only if nobody decided. */
  lemma {:induction false} StatusIsTheDecision(cfg: Config, d: Directory, es: seq<Event>, w: World, a: ApprovalId)
    requires Exec(cfg, Genesis(d), es) == Some(w)
    ensures a in w.approvals ==>
      && (w.approvals[a].status == Approved <==> WasDecided(es, a, true))
      && (w.approvals[a].status == Rejected <==> WasDecided(es, a, false))
    ensures a !in w.approvals ==> !WasDecided(es, a, true) && !WasDecided(es, a, false)
    decreases |es|
  {
    if es != [] {
      var u := Exec(cfg, Genesis(d), es[..|es| - 1]).value;
      StatusIsTheDecision(cfg, d, es[..|es| - 1], u, a);
      WasDecidedNext(es, a, true);
      WasDecidedNext(es, a, false);
      ApprovalAfter(cfg, u, es[|es| - 1], a);
    }
  }

  /** What one event does to one approval. */
  lemma ApprovalAfter(cfg: Config, w: World, e: Event, a: ApprovalId)
    requires Enabled(cfg, w, e)
    ensures var after := Apply(cfg, w, e).approvals;
      if e.Decide? && e.approval == a then
        && a in w.approvals && a in after && w.approvals[a].status == Pending
        && after[a] == w.approvals[a].(status := if e.accept then Approved else Rejected, decidedBy := Some(e.user))
      else if a in w.approvals then a in after && after[a] == w.approvals[a]
      else a in after ==> after[a].status == Pending && after[a].decidedBy.None?
  {
  }

  /** The recorded decider is the one who decided. */
  lemma {:induction false} DeciderDecided(cfg: Config, d: Directory, es: seq<Event>, w: World, a: ApprovalId)
    requires Exec(cfg, Genesis(d), es) == Some(w) && a in w.approvals && w.approvals[a].status != Pending
    ensures w.approvals[a].decidedBy.Some?
    ensures Decide(a, w.approvals[a].decidedBy.value, w.approvals[a].status == Approved) in es
    decreases |es|
  {
    var n := |es| - 1;
    var u, e := Exec(cfg, Genesis(d), es[..n]).value, es[n];
    ApprovalAfter(cfg, u, e, a);
    if e.Decide? && e.approval == a {
      assert e == es[n];
    } else {
      DeciderDecided(cfg, d, es[..n], u, a);
      var x := Decide(a, w.approvals[a].decidedBy.value, w.approvals[a].status == Approved);
      assert x in es[..n];
    }
  }

  /** The approval was asked for by the agent of a call of run r. */
  ghost predicate AskedByRun(w: World, r: RunId, a: ApprovalId)
    requires a in w.approvals
  {
    var x := w.approvals[a];
    && r in w.lives && a in w.lives[r].notes.filed && x.tenant == w.lives[r].run.tenant
    && x.requestedBy == "agent:" + x.department
    && exists i :: 0 <= i < |w.lives[r].notes.calls| && w.lives[r].notes.calls[i].department == x.department
  }

  /** An approval has the tenant, department and requester it was filed with, by hand or for a call of a run. */
  lemma {:induction false} ApprovalIsAsFiled(cfg: Config, d: Directory, es: seq<Event>, w: World, a: ApprovalId)
    requires Exec(cfg, Genesis(d), es) == Some(w) && a in w.approvals
    ensures var x := w.approvals[a];
      FileApproval(a, x.tenant, x.department, x.requestedBy) in es || exists r :: AskedByRun(w, r, a)
    decreases |es|
  {
    var n := |es| - 1;
    var u, e := Exec(cfg, Genesis(d), es[..n]).value, es[n];
    ApprovalAfter(cfg, u, e, a);
    if a in u.approvals {
      ApprovalIsAsFiled(cfg, d, es[..n], u, a);
      if r :| AskedByRun(u, r, a) {
        StepExtends(cfg, u, e, r);
        StillAsked(u, w, r, a);
      } else {
        var x := u.approvals[a];
        assert FileApproval(a, x.tenant, x.department, x.requestedBy) in es[..n];
      }
    } else if e.CommitApproval? {
      ReachableOnTrack(cfg, d, es[..n], u, e.run);
      FilingAsks(cfg, u, e);
    } else {
      assert e == es[n];
    }
  }

  lemma FilingAsks(cfg: Config, w: World, e: Event)
    requires Enabled(cfg, w, e) && e.CommitApproval? && OnTrack(cfg, e.run, w.lives[e.run])
    ensures e.approval in Apply(cfg, w, e).approvals && AskedByRun(Apply(cfg, w, e), e.run, e.approval)
  {
    var l := w.lives[e.run];
    assert l.notes.calls[|l.rows|] == l.driver.asked;
    assert Apply(cfg, w, e).lives[e.run].notes.calls == l.notes.calls;
  }

  lemma StillAsked(w: World, v: World, r: RunId, a: ApprovalId)
    requires a in w.approvals && a in v.approvals && v.approvals[a].tenant == w.approvals[a].tenant
    requires v.approvals[a].department == w.approvals[a].department
    requires v.approvals[a].requestedBy == w.approvals[a].requestedBy
    requires AskedByRun(w, r, a) && r in v.lives && LifeExtends(w.lives[r], v.lives[r])
    ensures AskedByRun(v, r, a)
  {
    var i :| 0 <= i < |w.lives[r].notes.calls| && w.lives[r].notes.calls[i].department == w.approvals[a].department;
    assert v.lives[r].notes.calls[i] == w.lives[r].notes.calls[i];
    assert a in v.lives[r].notes.filed[..|w.lives[r].notes.filed|];
  }

  /** Nothing runs past a pause that nobody accepted: behind a paused step with a later row, a later call or a
      completed run stands an acceptance, by an owner or administrator of the run's own tenant. */
  lemma PassedPauseWasAccepted(cfg: Config, d: Directory, es: seq<Event>, w: World, r: RunId, i: nat)
    returns (a: ApprovalId, u: UserId)
    requires Exec(cfg, Genesis(d), es) == Some(w) && r in w.lives
    requires i < |w.lives[r].rows| && w.lives[r].rows[i].escalated
    requires |w.lives[r].rows| > i + 1 || |w.lives[r].notes.calls| > i + 1 || w.lives[r].run.status == Completed
    ensures Decide(a, u, true) in es && !WasDecided(es, a, false)
    ensures i < |w.lives[r].notes.gates| && w.lives[r].notes.gates[i] == Some(a)
    ensures a in w.approvals && w.approvals[a].tenant == w.lives[r].run.tenant
    ensures u in w.directory.users && w.directory.users[u].tenant == w.lives[r].run.tenant
    ensures w.directory.users[u].tenantOwner || w.directory.users[u].platformAdmin
  {
    NothingPassesAnUnapprovedPause(cfg, d, es, w, r, i);
    a := w.lives[r].notes.gates[i].value;
    StatusIsTheDecision(cfg, d, es, w, a);
    DeciderDecided(cfg, d, es, w, a);
    u := w.approvals[a].decidedBy.value;
  }

  // ---------------------------------------------------------------- whose run it is

  /** A run is of the tenant, workflow and non-empty input it was started with, by the user who started it. */
  lemma {:induction false} RunIsAsStarted(cfg: Config, d: Directory, es: seq<Event>, w: World, r: RunId)
    requires Exec(cfg, Genesis(d), es) == Some(w) && r in w.lives
    ensures var run := w.lives[r].run;
      && StartRun(r, run.startedBy, run.slug, run.input) in es && run.input != "" && run.slug in cfg.workflows
      && run.startedBy in w.directory.users && w.directory.users[run.startedBy].tenant == run.tenant
    decreases |es|
  {
    var n := |es| - 1;
    var u, e := Exec(cfg, Genesis(d), es[..n]).value, es[n];
    ApplyOnlyGrows(cfg, u, e);
    OnlyStartsAddRuns(cfg, u, e);
    if r in u.lives {
      RunIsAsStarted(cfg, d, es[..n], u, r);
      StepExtends(cfg, u, e, r);
      SameStarter(cfg, u, e, r);
      var run := u.lives[r].run;
      assert StartRun(r, run.startedBy, run.slug, run.input) in es[..n];
      assert UserGrows(u.directory.users[run.startedBy], w.directory.users[run.startedBy]);
    } else {
      assert e == es[n];
    }
  }

  lemma SameStarter(cfg: Config, w: World, e: Event, r: RunId)
    requires Enabled(cfg, w, e) && r in w.lives
    ensures r in Apply(cfg, w, e).lives && Apply(cfg, w, e).lives[r].run.startedBy == w.lives[r].run.startedBy
  {
  }

  predicate OfTenant(d: Directory, u: UserId, tenant: string) {
    u in d.users && d.users[u].tenant == tenant
  }

  ghost predicate OwnPeople(d: Directory, l: Life) {
    && (forall i :: 0 <= i < |l.notes.authors| ==> OfTenant(d, l.notes.authors[i].id, l.run.tenant))
    && (!l.driver.NoDriver? ==> OfTenant(d, l.driver.caller.id, l.run.tenant))
  }

  lemma StepKeepsPeople(cfg: Config, w: World, l: Life, e: Event)
    requires IsRunEvent(e) && CanLife(cfg, w, l, e) && OwnPeople(w.directory, l)
    ensures OwnPeople(w.directory, LifeAfter(cfg, w, l, e))
  {
  }

  lemma PeopleStay(d: Directory, d': Directory, l: Life)
    requires OwnPeople(d, l) && Grows(d, d')
    ensures OwnPeople(d', l)
  {
    forall u | OfTenant(d, u, l.run.tenant) ensures OfTenant(d', u, l.run.tenant) {
      assert UserGrows(d.users[u], d'.users[u]);
    }
  }

  lemma {:induction false} RunIsDrivenFromWithin(cfg: Config, d: Directory, es: seq<Event>, w: World, r: RunId)
    requires Exec(cfg, Genesis(d), es) == Some(w) && r in w.lives
    ensures OwnPeople(w.directory, w.lives[r])
    decreases |es|
  {
    var n := |es| - 1;
    var u, e := Exec(cfg, Genesis(d), es[..n]).value, es[n];
    ApplyOnlyGrows(cfg, u, e);
    OnlyStartsAddRuns(cfg, u, e);
    if r in u.lives {
      RunIsDrivenFromWithin(cfg, d, es[..n], u, r);
      if IsRunEvent(e) && e.run == r {
        StepKeepsPeople(cfg, u, u.lives[r], e);
      } else {
        PeopleStay(u.directory, w.directory, u.lives[r]);
      }
    }
  }

  /** Every row was driven by a user of the run's own tenant who is an administrator, or an owner, or holds
      the permission of that row's department through a role. */
  lemma RowWasDrivenByAColleague(cfg: Config, d: Directory, es: seq<Event>, w: World, r: RunId, i: nat)
    returns (u: UserId)
    requires Exec(cfg, Genesis(d), es) == Some(w) && r in w.lives && i < |w.lives[r].rows|
    ensures i < |w.lives[r].notes.authors| && w.lives[r].notes.authors[i].id == u
    ensures u in w.directory.users && w.directory.users[u].tenant == w.lives[r].run.tenant
    ensures var user := w.directory.users[u]; var department := w.lives[r].rows[i].department;
      user.platformAdmin || user.tenantOwner ||
      (department in cfg.agents && cfg.agents[department].capability.permission.Some? &&
       exists role :: role in user.roles && role in w.directory.roles
         && cfg.agents[department].capability.permission.value in w.directory.roles[role].permissions)
  {
    EveryRowWasPermitted(cfg, d, es, w, r, i);
    RunIsDrivenFromWithin(cfg, d, es, w, r);
    u := w.lives[r].notes.authors[i].id;
    assert OfTenant(w.directory, u, w.lives[r].run.tenant);
  }
}
