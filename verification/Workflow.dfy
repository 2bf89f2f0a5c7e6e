/** Workflow definitions, the tables a run writes, and the reference meaning of a run: the plain
    uninterrupted loop (app/workflows/registry.py, app/workflows/models.py, app/approvals/models.py). */
module Workflow {
  import opened Common
  import Agents

  type RunId = string
  type UserId = string
  type ApprovalId = string

  /** A prompt template as the pieces Python's str.format sees. */
  datatype Piece = Words(text: string) | InputSlot | PreviousSlot
  datatype StepDef = StepDef(department: string, template: seq<Piece>)

  datatype Answer = Reply(text: string) | ProvidersFailed(error: string)

  /** The registries, and the AI providers as an arbitrary answer to (run, step, prompt). */
  datatype Config = Config(
    workflows: map<string, seq<StepDef>>,
    agents: map<string, Agents.Agent>,
    providers: (RunId, nat, string) -> Answer)

  datatype RunStatus = Running | Completed | Failed | Escalated

  datatype Run = Run(tenant: string, slug: string, startedBy: UserId, status: RunStatus,
                     input: string, error: Option<string>, pending: Option<ApprovalId>)

  datatype StepRow = StepRow(index: nat, department: string, status: RunStatus, output: Option<string>,
                             error: Option<string>, escalated: bool, reason: Option<string>)

  datatype ApprovalStatus = Pending | Approved | Rejected

  datatype Approval = Approval(tenant: string, department: string, requestedBy: string,
                               status: ApprovalStatus, decidedBy: Option<UserId>)

  datatype AuditAction = WorkflowFailed | WorkflowEscalated | WorkflowCompleted

  function Fill(template: seq<Piece>, input: string, previous: string): string {
    if template == [] then ""
    else (match template[0]
          case Words(t) => t
          case InputSlot => input
          case PreviousSlot => previous) + Fill(template[1..], input, previous)
  }

  const NO_PRIOR_STEP := "(no prior step)"

  function PromptFor(step: StepDef, input: string, previous: string): string {
    Fill(step.template, input, if previous == "" then NO_PRIOR_STEP else previous)
  }

  function PermissionFor(cfg: Config, department: string): Option<string> {
    if department in cfg.agents then cfg.agents[department].capability.permission else None
  }

  /** Why a step's response pauses the run, if it does: only the response text is judged. */
  function PauseReason(cfg: Config, department: string, response: string): Option<string> {
    if department !in cfg.agents then None
    else match Agents.ShouldEscalate(cfg.agents[department], Agents.Context(response, false, false))
         case Some(rule) => Some(rule.condition)
         case None => None
  }

  /** One call to an agent. */
  datatype Exchange = Exchange(index: nat, department: string, prompt: string, answer: Answer)

  function Ask(cfg: Config, r: RunId, steps: seq<StepDef>, input: string, i: nat, previous: string): Exchange
    requires i < |steps|
  {
    var prompt := PromptFor(steps[i], input, previous);
    Exchange(i, steps[i].department, prompt, cfg.providers(r, i, prompt))
  }

  /** The uninterrupted loop with escalation switched off: every call it makes, in order. */
  function Straight(cfg: Config, r: RunId, steps: seq<StepDef>, input: string, i: nat, previous: string): seq<Exchange>
    decreases |steps| - i
  {
    if i >= |steps| then []
    else
      var x := Ask(cfg, r, steps, input, i, previous);
      match x.answer
      case ProvidersFailed(_) => [x]
      case Reply(text) => [x] + Straight(cfg, r, steps, input, i + 1, text)
  }

  /** The text the next step receives as {previous}. */
  function Handed(trace: seq<Exchange>, i: nat): string
    requires i <= |trace|
  {
    if i == 0 then "" else match trace[i - 1].answer case Reply(t) => t case ProvidersFailed(_) => ""
  }

  /** Position i of a trace is the call the loop makes there. */
  ghost predicate Linked(cfg: Config, r: RunId, steps: seq<StepDef>, input: string, trace: seq<Exchange>, i: nat)
    requires i < |steps| && i < |trace|
  {
    trace[i] == Ask(cfg, r, steps, input, i, Handed(trace, i))
  }

  ghost predicate Chained(cfg: Config, r: RunId, steps: seq<StepDef>, input: string, trace: seq<Exchange>) {
    && |trace| <= |steps|
    && (forall i {:trigger Linked(cfg, r, steps, input, trace, i)} ::
          0 <= i < |trace| ==> Linked(cfg, r, steps, input, trace, i))
    && (forall i :: 0 <= i < |trace| - 1 ==> trace[i].answer.Reply?)
    && (|trace| < |steps| ==> |trace| > 0 && trace[|trace| - 1].answer.ProvidersFailed?)
  }

  lemma {:induction false} StraightFrom(cfg: Config, r: RunId, steps: seq<StepDef>, input: string, done: seq<Exchange>)
    requires |done| <= |steps|
    requires forall i {:trigger Linked(cfg, r, steps, input, done, i)} ::
               0 <= i < |done| ==> Linked(cfg, r, steps, input, done, i)
    requires forall i :: 0 <= i < |done| ==> done[i].answer.Reply?
    ensures Chained(cfg, r, steps, input, done + Straight(cfg, r, steps, input, |done|, Handed(done, |done|)))
    decreases |steps| - |done|
  {
    var rest := Straight(cfg, r, steps, input, |done|, Handed(done, |done|));
    if |done| == |steps| {
      assert done + rest == done;
    } else {
      var x := Ask(cfg, r, steps, input, |done|, Handed(done, |done|));
      var more := done + [x];
      forall i | 0 <= i < |more| ensures Linked(cfg, r, steps, input, more, i) {
        assert Handed(more, i) == Handed(done, i);
        assert i < |done| ==> Linked(cfg, r, steps, input, done, i);
      }
      if x.answer.Reply? {
        StraightFrom(cfg, r, steps, input, more);
        assert rest == [x] + Straight(cfg, r, steps, input, |more|, Handed(more, |more|));
        assert done + rest == more + Straight(cfg, r, steps, input, |more|, Handed(more, |more|));
      } else {
        assert done + rest == more;
      }
    }
  }

  function TraceOf(cfg: Config, r: RunId, run: Run): seq<Exchange>
    requires run.slug in cfg.workflows
  {
    Straight(cfg, r, cfg.workflows[run.slug], run.input, 0, "")
  }

  /** What the loop's recursion means position by position. */
  lemma TraceIsChained(cfg: Config, r: RunId, run: Run)
    requires run.slug in cfg.workflows
    ensures Chained(cfg, r, cfg.workflows[run.slug], run.input, TraceOf(cfg, r, run))
  {
    StraightFrom(cfg, r, cfg.workflows[run.slug], run.input, []);
    assert [] + TraceOf(cfg, r, run) == TraceOf(cfg, r, run);
  }

  /** A chained trace is unique, so the reference loop is the only one there is. */
  lemma {:induction false} ChainedUnique(cfg: Config, r: RunId, steps: seq<StepDef>, input: string,
                                         s: seq<Exchange>, t: seq<Exchange>, i: nat)
    requires Chained(cfg, r, steps, input, s) && Chained(cfg, r, steps, input, t)
    requires i <= |s| && i <= |t| && s[..i] == t[..i]
    ensures s == t
    decreases |s| - i
  {
    if i > 0 {
      assert s[i - 1] == s[..i][i - 1] == t[..i][i - 1] == t[i - 1];
    }
    if i == |s| || i == |t| {
      assert |s| == |t|;
      assert s == s[..i] && t == t[..i];
    } else {
      assert Linked(cfg, r, steps, input, s, i) && Linked(cfg, r, steps, input, t, i);
      assert s[..i + 1] == s[..i] + [s[i]] && t[..i + 1] == t[..i] + [t[i]];
      ChainedUnique(cfg, r, steps, input, s, t, i + 1);
    }
  }

  /** The step row that records an exchange. */
  function RowFor(cfg: Config, x: Exchange): StepRow {
    match x.answer
    case ProvidersFailed(e) => StepRow(x.index, x.department, Failed, None, Some(e), false, None)
    case Reply(t) =>
      var reason := PauseReason(cfg, x.department, t);
      StepRow(x.index, x.department, Completed, Some(t), None, reason.Some?, reason)
  }

  /** `completed_steps[-1].output_text if completed_steps else ""`, then `or ""`. */
  function LastOutput(rows: seq<StepRow>): string {
    if rows == [] then "" else rows[|rows| - 1].output.GetOr("")
  }

  function FailureText(index: nat, department: string, error: string): string {
    "Step " + Decimal(index) + " (" + department + ") failed: " + error
  }
}
