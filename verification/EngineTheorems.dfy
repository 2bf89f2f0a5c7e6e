/** What holds in every reachable state of the workflow engine, and over whole histories of it. */
module EngineTheorems {
  import opened Common
  import opened Rbac
  import opened Workflow
  import opened Engine

  // ---------------------------------------------------------------- reachable states satisfy the invariant

  /** Approvals are never removed, never change what they are for, and keep the first decision. */
  ghost predicate ApprovalsGrow(a: map<ApprovalId, Approval>, b: map<ApprovalId, Approval>) {
    forall id :: id in a ==> id in b && ApprovalGrows(a[id], b[id])
  }

  predicate ApprovalGrows(x: Approval, y: Approval) {
    && y.tenant == x.tenant && y.department == x.department && y.requestedBy == x.requestedBy
    && (x.status != Pending ==> y == x)
  }

  lemma ApprovalsOnlyGrow(cfg: Config, w: World, e: Event)
    requires Enabled(cfg, w, e)
    ensures ApprovalsGrow(w.approvals, Apply(cfg, w, e).approvals)
  {
  }

  lemma OthersLivesStay(cfg: Config, w: World, e: Event)
    requires Enabled(cfg, w, e)
    ensures w.lives.Keys <= Apply(cfg, w, e).lives.Keys
    ensures forall r :: r in w.lives && !(IsRunEvent(e) && e.run == r) ==> Apply(cfg, w, e).lives[r] == w.lives[r]
  {
  }

  lemma ApplyOnlyGrows(cfg: Config, w: World, e: Event)
    requires Enabled(cfg, w, e)
    ensures ApprovalsGrow(w.approvals, Apply(cfg, w, e).approvals)
    ensures Grows(w.directory, Apply(cfg, w, e).directory)
    ensures w.lives.Keys <= Apply(cfg, w, e).lives.Keys
    ensures forall r :: r in w.lives && !(IsRunEvent(e) && e.run == r) ==> Apply(cfg, w, e).lives[r] == w.lives[r]
  {
    GrowsReflexive(w.directory);
    ApprovalsOnlyGrow(cfg, w, e);
    OthersLivesStay(cfg, w, e);
  }

  lemma AuthorityStays(cfg: Config, d: Directory, d': Directory, l: Life)
    requires Authorised(cfg, d, l) && Grows(d, d')
    ensures Authorised(cfg, d', l)
  {
    forall c: Caller, dep | Vouched(cfg, d, c, dep) ensures Vouched(cfg, d', c, dep) {
      GrowsTransitive(c.seen, d, d');
      PermittedStays(d, d', c.id, PermissionFor(cfg, dep));
    }
  }

  lemma GatesStay(a: map<ApprovalId, Approval>, b: map<ApprovalId, Approval>, l: Life)
    requires ApprovalsGrow(a, b) && Gated(a, l) && OwnApprovals(a, l)
    ensures Gated(b, l) && OwnApprovals(b, l)
  {
    assert forall id :: IsApproved(a, id) ==> IsApproved(b, id);
    assert forall id :: Filed(a, l, id) ==> Filed(b, l, id);
  }

  lemma UntouchedRunKeeps(cfg: Config, w: World, w': World, r: RunId)
    requires r in w.lives && r in w'.lives && w'.lives[r] == w.lives[r]
    requires RunInv(cfg, w, r) && ApprovalsGrow(w.approvals, w'.approvals) && Grows(w.directory, w'.directory)
    ensures RunInv(cfg, w', r)
  {
    AuthorityStays(cfg, w.directory, w'.directory, w.lives[r]);
    GatesStay(w.approvals, w'.approvals, w.lives[r]);
  }

  lemma NewRunSatisfies(cfg: Config, w: World, e: Event)
    requires e.StartRun? && Enabled(cfg, w, e)
    ensures RunInv(cfg, Apply(cfg, w, e), e.run)
  {
    GrowsReflexive(w.directory);
    TraceIsChained(cfg, e.run, Apply(cfg, w, e).lives[e.run].run);
  }

  lemma DrivenRunKeeps(cfg: Config, w: World, e: Event)
    requires IsRunEvent(e) && !e.StartRun? && Enabled(cfg, w, e) && RunInv(cfg, w, e.run)
    ensures RunInv(cfg, Apply(cfg, w, e), e.run)
  {
    var l := w.lives[e.run];
    StaysOnTrack(cfg, w, l, e);
    StaysGated(cfg, w, l, e);
    StaysOwn(cfg, w, l, e);
    StaysBalanced(cfg, w, l, e);
    StaysAuthorised(cfg, w, l, e);
    var w' := Apply(cfg, w, e);
    assert w'.lives[e.run] == LifeAfter(cfg, w, l, e) && w'.directory == w.directory;
    assert w'.approvals == if e.CommitApproval? then w.approvals[e.approval := PausedApproval(l)] else w.approvals;
  }

  lemma ApprovalsStaySound(cfg: Config, w: World, e: Event)
    requires Enabled(cfg, w, e)
    requires forall a :: a in w.approvals ==> SoundApproval(w.directory, w.approvals[a])
    ensures var w' := Apply(cfg, w, e); forall a :: a in w'.approvals ==> SoundApproval(w'.directory, w'.approvals[a])
  {
    ApplyOnlyGrows(cfg, w, e);
    var w' := Apply(cfg, w, e);
    forall a | a in w'.approvals ensures SoundApproval(w'.directory, w'.approvals[a]) {
      if a in w.approvals && w.approvals[a].decidedBy.Some? {
        assert SoundApproval(w.directory, w.approvals[a]);
        var u := w.approvals[a].decidedBy.value;
        assert UserGrows(w.directory.users[u], w'.directory.users[u]);
      }
    }
  }

  lemma FiledAfter(cfg: Config, w: World, e: Event, r: RunId)
    requires Enabled(cfg, w, e) && r in Apply(cfg, w, e).lives
    ensures var filed := Apply(cfg, w, e).lives[r].notes.filed;
      if e.CommitApproval? && e.run == r then r in w.lives && filed == w.lives[r].notes.filed + [e.approval]
      else filed == (if r in w.lives then w.lives[r].notes.filed else [])
  {
  }

  ghost predicate FiledExist(w: World) {
    forall r, a :: r in w.lives && a in w.lives[r].notes.filed ==> a in w.approvals
  }

  lemma FiledStaysSeparate(cfg: Config, w: World, e: Event)
    requires Enabled(cfg, w, e) && FiledSeparately(w) && FiledExist(w)
    ensures FiledSeparately(Apply(cfg, w, e))
  {
    var w' := Apply(cfg, w, e);
    forall r, s, a | r in w'.lives && s in w'.lives && a in w'.lives[r].notes.filed && a in w'.lives[s].notes.filed
      ensures r == s
    {
      FiledAfter(cfg, w, e, r);
      FiledAfter(cfg, w, e, s);
      assert e.CommitApproval? ==> e.approval !in w.approvals;
    }
  }

  lemma FiledOnesExist(cfg: Config, w: World)
    requires Inv(cfg, w)
    ensures FiledExist(w) && FiledSeparately(w)
  {
    forall r, a | r in w.lives && a in w.lives[r].notes.filed ensures a in w.approvals {
      assert RunInv(cfg, w, r);
    }
  }

  lemma RunKeepsInv(cfg: Config, w: World, e: Event, r: RunId)
    requires Enabled(cfg, w, e) && r in Apply(cfg, w, e).lives
    requires r in w.lives ==> RunInv(cfg, w, r)
    ensures RunInv(cfg, Apply(cfg, w, e), r)
  {
    ApplyOnlyGrows(cfg, w, e);
    if IsRunEvent(e) && e.run == r {
      if e.StartRun? { NewRunSatisfies(cfg, w, e); } else { DrivenRunKeeps(cfg, w, e); }
    } else {
      assert r in w.lives by { OnlyStartsAddRuns(cfg, w, e); }
      UntouchedRunKeeps(cfg, w, Apply(cfg, w, e), r);
    }
  }

  lemma OnlyStartsAddRuns(cfg: Config, w: World, e: Event)
    requires Enabled(cfg, w, e)
    ensures Apply(cfg, w, e).lives.Keys == w.lives.Keys + (if e.StartRun? then {e.run} else {})
  {
  }

  lemma StepKeepsInv(cfg: Config, w: World, e: Event)
    requires Inv(cfg, w) && Enabled(cfg, w, e)
    ensures Inv(cfg, Apply(cfg, w, e))
  {
    var w' := Apply(cfg, w, e);
    forall r | r in w'.lives ensures RunInv(cfg, w', r) {
      RunKeepsInv(cfg, w, e, r);
    }
    ApprovalsStaySound(cfg, w, e);
    FiledOnesExist(cfg, w);
    FiledStaysSeparate(cfg, w, e);
  }

  lemma {:induction false} ExecKeepsInv(cfg: Config, w: World, es: seq<Event>, v: World)
    requires Inv(cfg, w) && Exec(cfg, w, es) == Some(v)
    ensures Inv(cfg, v)
    decreases |es|
  {
    if es != [] {
      var u := Exec(cfg, w, es[..|es| - 1]).value;
      ExecKeepsInv(cfg, w, es[..|es| - 1], u);
      StepKeepsInv(cfg, u, es[|es| - 1]);
    }
  }

  /** The invariant holds after every history, whatever crashed and however handlers interleaved. */
  lemma Invariant(cfg: Config, d: Directory, es: seq<Event>, w: World)
    requires Exec(cfg, Genesis(d), es) == Some(w)
    ensures Inv(cfg, w)
  {
    ExecKeepsInv(cfg, Genesis(d), es, w);
  }

  /** Histories compose. */
  lemma {:induction false} ExecSplits(cfg: Config, w: World, es: seq<Event>, fs: seq<Event>)
    ensures Exec(cfg, w, es + fs) == match Exec(cfg, w, es) case None => None case Some(v) => Exec(cfg, v, fs)
    decreases |fs|
  {
    if fs == [] {
      assert es + fs == es;
    } else {
      var n := |fs| - 1;
      assert (es + fs)[..|es + fs| - 1] == es + fs[..n];
      assert (es + fs)[|es + fs| - 1] == fs[n];
      ExecSplits(cfg, w, es, fs[..n]);
    }
  }

  /** One step of a run never rewrites what the run has already recorded. */
  ghost predicate LifeExtends(l: Life, m: Life) {
    && m.run.tenant == l.run.tenant && m.run.slug == l.run.slug && m.run.input == l.run.input
    && l.rows <= m.rows && l.notes.calls <= m.notes.calls && l.notes.gates <= m.notes.gates && l.audits <= m.audits
    && l.notes.filed <= m.notes.filed
  }

  lemma StepExtends(cfg: Config, w: World, e: Event, r: RunId)
    requires Enabled(cfg, w, e) && r in w.lives
    ensures r in Apply(cfg, w, e).lives && LifeExtends(w.lives[r], Apply(cfg, w, e).lives[r])
  {
    if IsRunEvent(e) && !e.StartRun? && e.run == r {
      assert Apply(cfg, w, e).lives[r] == LifeAfter(cfg, w, w.lives[r], e);
    } else {
      ApplyOnlyGrows(cfg, w, e);
    }
  }

  /** Over any continuation a run keeps its identity, its recorded rows, calls and audits. */
  lemma {:induction false} RecordsOnlyGrow(cfg: Config, w: World, es: seq<Event>, v: World, r: RunId)
    requires Exec(cfg, w, es) == Some(v) && r in w.lives
    ensures r in v.lives && LifeExtends(w.lives[r], v.lives[r])
    decreases |es|
  {
    if es != [] {
      var u, e := Exec(cfg, w, es[..|es| - 1]).value, es[|es| - 1];
      RecordsOnlyGrow(cfg, w, es[..|es| - 1], u, r);
      StepExtends(cfg, u, e, r);
    }
  }

  /** Over any continuation first decisions stand and grants stay. */
  lemma {:induction false} DecisionsStand(cfg: Config, w: World, es: seq<Event>, v: World)
    requires Exec(cfg, w, es) == Some(v)
    ensures ApprovalsGrow(w.approvals, v.approvals) && Grows(w.directory, v.directory)
    decreases |es|
  {
    if es == [] {
      GrowsReflexive(w.directory);
    } else {
      var u, e := Exec(cfg, w, es[..|es| - 1]).value, es[|es| - 1];
      DecisionsStand(cfg, w, es[..|es| - 1], u);
      ApplyOnlyGrows(cfg, u, e);
      GrowsTransitive(w.directory, u.directory, v.directory);
    }
  }

  // ---------------------------------------------------------------- resuming is transparent

  function Projection(rows: seq<StepRow>): seq<(nat, string, Option<string>, Option<string>)> {
    seq(|rows|, i requires 0 <= i < |rows| => (rows[i].index, rows[i].department, rows[i].output, rows[i].error))
  }

  predicate Finished(l: Life) {
    l.run.status == Completed || l.run.status == Failed
  }

  /** However often a run was paused, approved, resumed or abandoned: the calls it made are a prefix of
      the uninterrupted loop's, its rows record exactly those calls, and when it has finished both are
      the whole of it, ending FAILED precisely when that loop ends on a failed call. */
  lemma ResumeIsTransparent(cfg: Config, d: Directory, es: seq<Event>, w: World, r: RunId)
    requires Exec(cfg, Genesis(d), es) == Some(w) && r in w.lives
    ensures w.lives[r].run.slug in cfg.workflows
    ensures var l := w.lives[r]; var trace := TraceOf(cfg, r, l.run);
      && l.notes.calls <= trace
      && |l.rows| <= |l.notes.calls| <= |l.rows| + 1
      && (forall i :: 0 <= i < |l.rows| ==> l.rows[i] == RowFor(cfg, trace[i]) && l.rows[i].index == i)
      && (Finished(l) ==> l.notes.calls == trace && |l.rows| == |trace|)
      && (l.run.status == Completed ==> |l.rows| == |cfg.workflows[l.run.slug]|)
      && (l.run.status == Failed ==> trace != [] && trace[|trace| - 1].answer.ProvidersFailed?)
  {
    ReachableOnTrack(cfg, d, es, w, r);
    var l := w.lives[r];
    RowsAreIndexed(cfg, r, l);
    if Finished(l) {
      FinishedLifeIsItsTrace(cfg, r, l);
    }
  }

  lemma RowsAreIndexed(cfg: Config, r: RunId, l: Life)
    requires OnTrack(cfg, r, l)
    ensures forall i :: 0 <= i < |l.rows| ==> l.rows[i].index == i
  {
    TraceIsChained(cfg, r, l.run);
    forall i | 0 <= i < |l.rows| ensures l.rows[i].index == i {
      assert Linked(cfg, r, cfg.workflows[l.run.slug], l.run.input, TraceOf(cfg, r, l.run), i);
    }
  }

  /** The rows a run of these steps may have, given its status. */
  predicate WellShaped(l: Life, steps: seq<StepDef>) {
    var k := |l.rows|;
    && k <= |steps|
    && (forall i :: 0 <= i < k ==> l.rows[i].index == i && l.rows[i].department == steps[i].department)
    && (forall i :: 0 <= i < k ==> l.rows[i].status == Completed || l.rows[i].status == Failed)
    && (forall i :: 0 <= i < k && l.rows[i].status == Failed ==> i == k - 1 && l.run.status == Failed)
    && (l.run.status == Failed ==> k > 0 && l.rows[k - 1].status == Failed)
    && (l.run.status == Escalated ==> k > 0 && l.rows[k - 1].escalated)
    && (l.run.status == Completed ==> k == |steps|)
    && (forall i :: 0 <= i < k ==>
          && (l.rows[i].status == Completed <==> l.rows[i].output.Some?)
          && (l.rows[i].escalated ==> l.rows[i].output.Some?))
  }

  /** In every reachable state a run's rows are rows 0..k-1 of its workflow: a FAILED one only last and only
      in a FAILED run, an ESCALATED run ends in an escalated row with all rows COMPLETED, a COMPLETED one has
      all steps. */
  lemma RowShape(cfg: Config, d: Directory, es: seq<Event>, w: World, r: RunId)
    requires Exec(cfg, Genesis(d), es) == Some(w) && r in w.lives
    ensures w.lives[r].run.slug in cfg.workflows
    ensures WellShaped(w.lives[r], cfg.workflows[w.lives[r].run.slug])
    ensures w.lives[r].run.status == Escalated ==>
      forall i :: 0 <= i < |w.lives[r].rows| ==> w.lives[r].rows[i].status == Completed
  {
    ReachableOnTrack(cfg, d, es, w, r);
    OnTrackIsWellShaped(cfg, r, w.lives[r]);
  }

  lemma OnTrackIsWellShaped(cfg: Config, r: RunId, l: Life)
    requires OnTrack(cfg, r, l)
    ensures WellShaped(l, cfg.workflows[l.run.slug])
  {
    var steps, trace := cfg.workflows[l.run.slug], TraceOf(cfg, r, l.run);
    TraceIsChained(cfg, r, l.run);
    RowsAreIndexed(cfg, r, l);
    forall i | 0 <= i < |l.rows| ensures l.rows[i].department == steps[i].department {
      assert Linked(cfg, r, steps, l.run.input, trace, i);
    }
    forall i | 0 <= i < |l.rows| && l.rows[i].status == Failed ensures i == |l.rows| - 1 && l.run.status == Failed {
      assert trace[i].answer.ProvidersFailed?;
    }
  }

  lemma TracesAgree(cfg: Config, cfg': Config, r: RunId, run: Run, run': Run)
    requires cfg'.workflows == cfg.workflows && (forall i, p :: cfg'.providers(r, i, p) == cfg.providers(r, i, p))
    requires run.slug in cfg.workflows && run'.slug == run.slug && run'.input == run.input
    ensures TraceOf(cfg', r, run') == TraceOf(cfg, r, run)
  {
    var steps := cfg.workflows[run.slug];
    var s, t := TraceOf(cfg, r, run), TraceOf(cfg', r, run');
    TraceIsChained(cfg, r, run);
    TraceIsChained(cfg', r, run');
    forall i | 0 <= i < |t| ensures Linked(cfg, r, steps, run.input, t, i) {
      assert Linked(cfg', r, steps, run.input, t, i);
    }
    ChainedUnique(cfg, r, steps, run.input, s, t, 0);
  }

  lemma ReachableOnTrack(cfg: Config, d: Directory, es: seq<Event>, w: World, r: RunId)
    requires Exec(cfg, Genesis(d), es) == Some(w) && r in w.lives
    ensures OnTrack(cfg, r, w.lives[r])
  {
    Invariant(cfg, d, es, w);
    assert RunInv(cfg, w, r);
  }

  /** How a finished run reads off its trace: its calls, which rows, which status. */
  lemma FinishedLifeIsItsTrace(cfg: Config, r: RunId, l: Life)
    requires OnTrack(cfg, r, l) && Finished(l)
    ensures var trace := TraceOf(cfg, r, l.run);
      && l.notes.calls == trace && |l.rows| == |trace|
      && (forall i :: 0 <= i < |trace| ==> Projection(l.rows)[i] == ProjectionOf(trace[i]))
      && l.run.status == (if trace != [] && trace[|trace| - 1].answer.ProvidersFailed? then Failed else Completed)
  {
    TraceIsChained(cfg, r, l.run);
    var trace := TraceOf(cfg, r, l.run);
    forall i | 0 <= i < |l.rows| ensures Projection(l.rows)[i] == ProjectionOf(trace[i]) {
      assert l.rows[i] == RowFor(cfg, trace[i]);
    }
  }

  function ProjectionOf(x: Exchange): (nat, string, Option<string>, Option<string>) {
    match x.answer
    case Reply(t) => (x.index, x.department, Some(t), None)
    case ProvidersFailed(e) => (x.index, x.department, None, Some(e))
  }

  /** Two deployments that differ only in their escalation rules (one may have none at all) and two
      histories of the same run: if both finish, nobody can tell from calls, status or outputs which was paused. */
  lemma PausedAndUnpausedRunsAgree(cfg: Config, d: Directory, es: seq<Event>, w: World,
                                   cfg': Config, d': Directory, es': seq<Event>, w': World, r: RunId)
    requires Exec(cfg, Genesis(d), es) == Some(w) && Exec(cfg', Genesis(d'), es') == Some(w')
    requires cfg'.workflows == cfg.workflows
    requires forall i, p :: cfg'.providers(r, i, p) == cfg.providers(r, i, p)
    requires r in w.lives && r in w'.lives && Finished(w.lives[r]) && Finished(w'.lives[r])
    requires w'.lives[r].run.slug == w.lives[r].run.slug && w'.lives[r].run.input == w.lives[r].run.input
    ensures w'.lives[r].notes.calls == w.lives[r].notes.calls
    ensures w'.lives[r].run.status == w.lives[r].run.status
    ensures Projection(w'.lives[r].rows) == Projection(w.lives[r].rows)
  {
    ReachableOnTrack(cfg, d, es, w, r);
    ReachableOnTrack(cfg', d', es', w', r);
    TracesAgree(cfg, cfg', r, w.lives[r].run, w'.lives[r].run);
    SameTraceSameEnd(cfg, cfg', r, w.lives[r], w'.lives[r]);
  }

  lemma SameTraceSameEnd(cfg: Config, cfg': Config, r: RunId, l: Life, m: Life)
    requires OnTrack(cfg, r, l) && OnTrack(cfg', r, m) && Finished(l) && Finished(m)
    requires TraceOf(cfg', r, m.run) == TraceOf(cfg, r, l.run)
    ensures m.notes.calls == l.notes.calls && m.run.status == l.run.status && Projection(m.rows) == Projection(l.rows)
  {
    FinishedLifeIsItsTrace(cfg, r, l);
    FinishedLifeIsItsTrace(cfg', r, m);
  }

  // ---------------------------------------------------------------- nothing runs past an unapproved pause

  /** If a paused step has a successor row, a successor call, or a completed run after it, then its own
      approval was approved, in the run's tenant, by an owner or administrator of that tenant. */
  lemma NothingPassesAnUnapprovedPause(cfg: Config, d: Directory, es: seq<Event>, w: World, r: RunId, i: nat)
    requires Exec(cfg, Genesis(d), es) == Some(w) && r in w.lives
    requires i < |w.lives[r].rows| && w.lives[r].rows[i].escalated
    requires |w.lives[r].rows| > i + 1 || |w.lives[r].notes.calls| > i + 1 || w.lives[r].run.status == Completed
    ensures |w.lives[r].notes.gates| == |w.lives[r].rows| && w.lives[r].notes.gates[i].Some?
    ensures var a := w.lives[r].notes.gates[i].value;
      && IsApproved(w.approvals, a) && w.approvals[a].tenant == w.lives[r].run.tenant
      && w.approvals[a].decidedBy.Some?
      && var u := w.approvals[a].decidedBy.value;
         u in w.directory.users && w.directory.users[u].tenant == w.lives[r].run.tenant
         && MayDecide(w.directory.users[u])
  {
    Invariant(cfg, d, es, w);
    assert RunInv(cfg, w, r);
    var l := w.lives[r];
    assert Passed(l, i);
    var a := l.notes.gates[i].value;
    assert SoundApproval(w.directory, w.approvals[a]);
  }

  /** And whatever happens afterwards, that row keeps that approval and the approval stays approved. */
  lemma PassedPausesStayApproved(cfg: Config, d: Directory, es: seq<Event>, w: World, r: RunId, i: nat, fs: seq<Event>,
                                 v: World)
    requires Exec(cfg, Genesis(d), es) == Some(w) && r in w.lives && Exec(cfg, w, fs) == Some(v)
    requires i < |w.lives[r].rows| && w.lives[r].rows[i].escalated
    requires |w.lives[r].rows| > i + 1 || |w.lives[r].notes.calls| > i + 1 || w.lives[r].run.status == Completed
    ensures i < |w.lives[r].notes.gates| && w.lives[r].notes.gates[i].Some?
    ensures r in v.lives && i < |v.lives[r].notes.gates| && v.lives[r].notes.gates[i] == w.lives[r].notes.gates[i]
    ensures IsApproved(v.approvals, w.lives[r].notes.gates[i].value)
  {
    NothingPassesAnUnapprovedPause(cfg, d, es, w, r, i);
    RecordsOnlyGrow(cfg, w, fs, v, r);
    DecisionsStand(cfg, w, fs, v);
  }

  /** One sign-off opens one pause: no approval stands behind two rows, of one run or of two. */
  lemma OneApprovalPerPause(cfg: Config, d: Directory, es: seq<Event>, w: World, r: RunId, i: nat, s: RunId, j: nat)
    requires Exec(cfg, Genesis(d), es) == Some(w) && r in w.lives && s in w.lives
    requires i < |w.lives[r].notes.gates| && j < |w.lives[s].notes.gates|
    requires w.lives[r].notes.gates[i].Some? && w.lives[r].notes.gates[i] == w.lives[s].notes.gates[j]
    ensures r == s && i == j
  {
    Invariant(cfg, d, es, w);
    assert RunInv(cfg, w, r) && RunInv(cfg, w, s);
  }

  /** An ESCALATED run names the approval it waits for; any other status naming one has it approved. */
  lemma PendingIdIsMeaningful(cfg: Config, d: Directory, es: seq<Event>, w: World, r: RunId)
    requires Exec(cfg, Genesis(d), es) == Some(w) && r in w.lives
    ensures var run := w.lives[r].run;
      && (run.status == Escalated ==> run.pending.Some? && run.pending.value in w.approvals
                                      && w.approvals[run.pending.value].tenant == run.tenant)
      && (run.status != Escalated && run.pending.Some? ==> IsApproved(w.approvals, run.pending.value))
  {
    Invariant(cfg, d, es, w);
    assert RunInv(cfg, w, r);
  }

  // ---------------------------------------------------------------- at most once, and termination

  /** The j-th call a run ever makes is for step j: no step is asked twice, and a completed run asked each once. */
  lemma EachStepAskedAtMostOnce(cfg: Config, d: Directory, es: seq<Event>, w: World, r: RunId)
    requires Exec(cfg, Genesis(d), es) == Some(w) && r in w.lives
    ensures forall j :: 0 <= j < |w.lives[r].notes.calls| ==> w.lives[r].notes.calls[j].index == j
    ensures w.lives[r].run.status == Completed ==> |w.lives[r].notes.calls| == |StepsOf(cfg, w.lives[r])|
  {
    ResumeIsTransparent(cfg, d, es, w, r);
    var l := w.lives[r];
    TraceIsChained(cfg, r, l.run);
    forall j | 0 <= j < |l.notes.calls| ensures l.notes.calls[j].index == j {
      assert Linked(cfg, r, cfg.workflows[l.run.slug], l.run.input, TraceOf(cfg, r, l.run), j);
      assert l.notes.calls[j] == TraceOf(cfg, r, l.run)[j];
    }
  }

  /** Events by which a run makes progress: agent calls and commits. */
  predicate Progress(e: Event, r: RunId) {
    IsRunEvent(e) && e.run == r && !e.StartRun? && !e.CheckResume? && !e.Crash?
  }

  function ProgressCount(es: seq<Event>, r: RunId): nat {
    if es == [] then 0 else ProgressCount(es[..|es| - 1], r) + Bit(Progress(es[|es| - 1], r))
  }

  function ProgressPlaces(es: seq<Event>, r: RunId): set<int> {
    set i | 0 <= i < |es| && Progress(es[i], r)
  }

  lemma {:induction false} ProgressIsCounted(es: seq<Event>, r: RunId)
    ensures ProgressCount(es, r) == |ProgressPlaces(es, r)|
    decreases |es|
  {
    if es != [] {
      var n := |es| - 1;
      ProgressIsCounted(es[..n], r);
      assert ProgressPlaces(es, r) == ProgressPlaces(es[..n], r) + (if Progress(es[n], r) then {n} else {});
    }
  }

  function Phase(l: Life): nat {
    match l.driver
    case AtStep(_, _, _) => 2
    case Answered(_, _) => 1
    case ApprovalCommitted(_, _, _) => 0
    case AuditOwed(_, _) => if l.run.status == Escalated then 4 else 1
    case ResumeChecked(_, _, _) => 3
    case NoDriver => if l.run.status == Escalated then 3 else 0
  }

  /** What a run may still do: five events for every step left, plus where its driver stands. */
  function Rank(cfg: Config, l: Life): int {
    5 * (|StepsOf(cfg, l)| - |l.rows|) + Phase(l)
  }

  lemma LifeRankDrops(cfg: Config, w: World, l: Life, e: Event)
    requires IsRunEvent(e) && CanLife(cfg, w, l, e) && OnTrack(cfg, e.run, l)
    ensures Rank(cfg, LifeAfter(cfg, w, l, e)) + Bit(Progress(e, e.run)) <= Rank(cfg, l)
  {
    var m := LifeAfter(cfg, w, l, e);
    assert StepsOf(cfg, m) == StepsOf(cfg, l);
    if e.CommitRow? || e.CommitFailure? || e.CommitEscalation? {
      assert |m.rows| == |l.rows| + 1 && Phase(m) + 1 <= Phase(l) + 5;
    } else {
      assert m.rows == l.rows;
      PhaseDrops(cfg, w, l, e);
    }
  }

  lemma PhaseDrops(cfg: Config, w: World, l: Life, e: Event)
    requires IsRunEvent(e) && CanLife(cfg, w, l, e) && OnTrack(cfg, e.run, l)
    requires !(e.CommitRow? || e.CommitFailure? || e.CommitEscalation?)
    ensures Phase(LifeAfter(cfg, w, l, e)) + Bit(Progress(e, e.run)) <= Phase(l)
  {
  }

  lemma RankDrops(cfg: Config, w: World, e: Event)
    requires Inv(cfg, w) && Enabled(cfg, w, e) && IsRunEvent(e) && !e.StartRun?
    ensures Rank(cfg, Apply(cfg, w, e).lives[e.run]) + Bit(Progress(e, e.run)) <= Rank(cfg, w.lives[e.run])
  {
    assert RunInv(cfg, w, e.run);
    LifeRankDrops(cfg, w, w.lives[e.run], e);
    assert Apply(cfg, w, e).lives[e.run] == LifeAfter(cfg, w, w.lives[e.run], e);
  }

  lemma {:induction false} ProgressIsBounded(cfg: Config, w: World, es: seq<Event>, v: World, r: RunId)
    requires Inv(cfg, w) && Exec(cfg, w, es) == Some(v) && r in w.lives
    ensures r in v.lives && ProgressCount(es, r) + Rank(cfg, v.lives[r]) <= Rank(cfg, w.lives[r])
    decreases |es|
  {
    if es != [] {
      var u, e := Exec(cfg, w, es[..|es| - 1]).value, es[|es| - 1];
      ProgressIsBounded(cfg, w, es[..|es| - 1], u, r);
      ExecKeepsInv(cfg, w, es[..|es| - 1], u);
      ApplyOnlyGrows(cfg, u, e);
      if IsRunEvent(e) && e.run == r {
        RankDrops(cfg, u, e);
      }
    }
  }

  lemma {:induction false} ProgressSinceStart(cfg: Config, d: Directory, es: seq<Event>, w: World, r: RunId)
    requires Exec(cfg, Genesis(d), es) == Some(w) && r in w.lives
    ensures ProgressCount(es, r) + Rank(cfg, w.lives[r]) <= 5 * |StepsOf(cfg, w.lives[r])| + 2
    decreases |es|
  {
    var u, e := Exec(cfg, Genesis(d), es[..|es| - 1]).value, es[|es| - 1];
    if r in u.lives {
      ProgressSinceStart(cfg, d, es[..|es| - 1], u, r);
      Invariant(cfg, d, es[..|es| - 1], u);
      StepExtends(cfg, u, e, r);
      if IsRunEvent(e) && e.run == r {
        RankDrops(cfg, u, e);
      } else {
        ApplyOnlyGrows(cfg, u, e);
      }
    } else {
      NoProgressBeforeStart(cfg, d, es[..|es| - 1], u, r);
      OnlyStartsAddRuns(cfg, u, e);
    }
  }

  /** Every chain of pauses, approvals and resumes ends: over its whole life a run of n steps makes
      at most 5n + 2 calls and commits after it was created. */
  lemma EveryRunEnds(cfg: Config, d: Directory, es: seq<Event>, w: World, r: RunId)
    requires Exec(cfg, Genesis(d), es) == Some(w) && r in w.lives
    ensures |set i | 0 <= i < |es| && Progress(es[i], r)| <= 5 * |StepsOf(cfg, w.lives[r])| + 2
  {
    ProgressIsCounted(es, r);
    ProgressSinceStart(cfg, d, es, w, r);
    Invariant(cfg, d, es, w);
    RankIsNatural(cfg, w, r);
  }

  lemma RankIsNatural(cfg: Config, w: World, r: RunId)
    requires Inv(cfg, w) && r in w.lives
    ensures 0 <= Rank(cfg, w.lives[r])
  {
    assert RunInv(cfg, w, r);
    StepsMatch(cfg, r, w.lives[r]);
  }

  lemma {:induction false} NoProgressBeforeStart(cfg: Config, d: Directory, es: seq<Event>, w: World, r: RunId)
    requires Exec(cfg, Genesis(d), es) == Some(w) && r !in w.lives
    ensures ProgressCount(es, r) == 0
    decreases |es|
  {
    if es != [] {
      var u, e := Exec(cfg, Genesis(d), es[..|es| - 1]).value, es[|es| - 1];
      ApplyOnlyGrows(cfg, u, e);
      NoProgressBeforeStart(cfg, d, es[..|es| - 1], u, r);
    }
  }

  /** A driver is never blocked: its next call or commit is always possible (given an unused approval id). */
  lemma DriverNeverBlocked(cfg: Config, d: Directory, es: seq<Event>, w: World, r: RunId, unused: ApprovalId)
    requires Exec(cfg, Genesis(d), es) == Some(w) && r in w.lives && !w.lives[r].driver.NoDriver?
    requires unused !in w.approvals
    ensures exists e :: Progress(e, r) && Enabled(cfg, w, e)
  {
    var l := w.lives[r];
    var e := match l.driver
      case AtStep(_, i, _) => if i < |StepsOf(cfg, l)| then AskAgent(r) else CommitCompletion(r)
      case Answered(_, x) =>
        if x.answer.ProvidersFailed? then CommitFailure(r)
        else if PauseReason(cfg, x.department, x.answer.text).None? then CommitRow(r) else CommitApproval(r, unused)
      case ApprovalCommitted(_, _, _) => CommitEscalation(r)
      case AuditOwed(_, _) => CommitAudit(r)
      case ResumeChecked(_, _, _) => CommitResume(r)
      case NoDriver => Crash(r);
    assert Progress(e, r) && Enabled(cfg, w, e);
  }

  /** Nobody drives the run and no handler will: it is not ESCALATED, or its approval was rejected. */
  predicate Stranded(w: World, l: Life) {
    && l.driver.NoDriver?
    && (l.run.status == Escalated ==>
          l.run.pending.Some? && l.run.pending.value in w.approvals
          && w.approvals[l.run.pending.value].status == Rejected)
  }

  /** In particular a run whose driver died mid-step stays RUNNING for ever: resume refuses it. */
  lemma {:induction false} StrandedStaysStranded(cfg: Config, w: World, es: seq<Event>, v: World, r: RunId)
    requires Exec(cfg, w, es) == Some(v) && r in w.lives && Stranded(w, w.lives[r])
    ensures r in v.lives && v.lives[r] == w.lives[r] && ProgressCount(es, r) == 0
    decreases |es|
  {
    if es != [] {
      var u, e := Exec(cfg, w, es[..|es| - 1]).value, es[|es| - 1];
      StrandedStaysStranded(cfg, w, es[..|es| - 1], u, r);
      DecisionsStand(cfg, w, es[..|es| - 1], u);
      ApplyOnlyGrows(cfg, u, e);
    }
  }

  /** The shortest history that strands a run: it is started and its process dies. */
  lemma StartedAndDied(cfg: Config, d: Directory, r: RunId, user: UserId, slug: string, input: string)
    returns (w: World)
    requires CanStart(cfg, Genesis(d), user, slug, input)
    ensures Exec(cfg, Genesis(d), [StartRun(r, user, slug, input), Crash(r)]) == Some(w)
    ensures r in w.lives && w.lives[r].run.status == Running && w.lives[r].rows == [] && Stranded(w, w.lives[r])
  {
    var e, f := StartRun(r, user, slug, input), Crash(r);
    var u := Apply(cfg, Genesis(d), e);
    assert [e][..0] == [] && [e, f][..1] == [e];
    assert Exec(cfg, Genesis(d), [e]) == Some(u);
    w := Apply(cfg, u, f);
  }

  /** The converse: an idle run that is ESCALATED with an undecided or granted approval is one approval
      and one permitted colleague away from its next step. */
  lemma WaitingRunsCanResume(cfg: Config, d: Directory, es: seq<Event>, w: World, r: RunId, user: UserId)
    requires Exec(cfg, Genesis(d), es) == Some(w) && r in w.lives
    requires w.lives[r].driver.NoDriver? && !Stranded(w, w.lives[r])
    requires user in w.directory.users && w.directory.users[user].tenant == w.lives[r].run.tenant
    requires CanDriveFrom(cfg, w.directory, user, StepsOf(cfg, w.lives[r]), |w.lives[r].rows|)
    ensures w.lives[r].run.pending.Some?
    ensures Enabled(cfg, w, CheckResume(r, user)) <==> IsApproved(w.approvals, w.lives[r].run.pending.value)
    ensures !IsApproved(w.approvals, w.lives[r].run.pending.value) ==>
      forall boss :: boss in w.directory.users && MayDecide(w.directory.users[boss])
        && w.directory.users[boss].tenant == w.lives[r].run.tenant
        ==> Enabled(cfg, w, Decide(w.lives[r].run.pending.value, boss, true))
  {
    PendingIdIsMeaningful(cfg, d, es, w, r);
  }

  // ---------------------------------------------------------------- accounting

  /** Approvals filed, rows paused, resumes and audit rows, in every reachable state. */
  lemma EscalationsAreAccountedFor(cfg: Config, d: Directory, es: seq<Event>, w: World, r: RunId)
    requires Exec(cfg, Genesis(d), es) == Some(w) && r in w.lives
    ensures var l := w.lives[r];
      && Paused(l.rows) <= |l.notes.filed| <= Paused(l.rows) + 1
      && (l.run.status != Running ==> |l.notes.filed| == Paused(l.rows))
      && Times(WorkflowEscalated, l.audits) <= Paused(l.rows) <= |StepsOf(cfg, l)|
      && l.notes.resumes <= Paused(l.rows)
      && Times(WorkflowFailed, l.audits) + Times(WorkflowCompleted, l.audits) <= Bit(Finished(l))
    ensures var l := w.lives[r]; l.driver.NoDriver? && l.notes.crashes == 0 ==>
      && Times(WorkflowEscalated, l.audits) == Paused(l.rows) == |l.notes.filed|
      && Times(WorkflowFailed, l.audits) == Bit(l.run.status == Failed)
      && Times(WorkflowCompleted, l.audits) == Bit(l.run.status == Completed)
  {
    Invariant(cfg, d, es, w);
    assert RunInv(cfg, w, r);
    StepsMatch(cfg, r, w.lives[r]);
    PausedAtMostAll(w.lives[r].rows);
  }

  lemma {:induction false} PausedAtMostAll(rows: seq<StepRow>)
    ensures Paused(rows) <= |rows|
    decreases |rows|
  {
    if rows != [] { PausedAtMostAll(rows[..|rows| - 1]); }
  }

  // ---------------------------------------------------------------- permission over whole runs

  /** Every persisted row was driven by someone permitted for its department when his handler loaded
      him, still permitted when the row was written, and still permitted now. */
  lemma EveryRowWasPermitted(cfg: Config, d: Directory, es: seq<Event>, w: World, r: RunId, i: nat)
    requires Exec(cfg, Genesis(d), es) == Some(w) && r in w.lives && i < |w.lives[r].rows|
    ensures |w.lives[r].notes.authors| == |w.lives[r].rows|
    ensures var c := w.lives[r].notes.authors[i]; var code := PermissionFor(cfg, w.lives[r].rows[i].department);
      Permitted(c.seen, c.id, code) && Permitted(w.directory, c.id, code)
  {
    Invariant(cfg, d, es, w);
    assert RunInv(cfg, w, r);
    assert Vouched(cfg, w.directory, w.lives[r].notes.authors[i], w.lives[r].rows[i].department);
  }
}
