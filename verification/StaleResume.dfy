/** What the one-driver-per-run assumption is for. The resume handler reads the run in one session and
    writes RUNNING in another without re-checking (app/workflows/router.py:166-188, 225-235), so two handlers
    can hold one run. Here both keep their own position and interleave freely over the run's tables. */
module StaleResume {
  import opened Common
  import opened Rbac
  import opened Workflow
  import opened Engine
  import opened EngineTheorems

  /** One run with two handlers: `life.driver` is the first one's position, `other` the second one's.
      `endings` counts the commits that ended the run, FAILED or COMPLETED. */
  datatype Duel = Duel(life: Life, other: Driver, endings: nat)

  /** A step of the first or the second handler; `w` is the platform around the run as that step finds it. */
  datatype Move = Move(first: bool, e: Event, w: World)

  /** The run as the mover sees it: the shared tables and his own position. */
  function Side(d: Duel, first: bool): Life {
    if first then d.life else d.life.(driver := d.other)
  }

  /** The table check of the first session made again in the second: still ESCALATED, no new row. */
  predicate Recheck(l: Life, index: nat) {
    l.run.status == Escalated && |l.rows| == index
  }

  /** `guarded` is a resume handler that repeats the check; the code's does not. */
  predicate CanMove(cfg: Config, r: RunId, guarded: bool, d: Duel, m: Move) {
    && IsRunEvent(m.e) && !m.e.CheckResume? && m.e.run == r
    && CanLife(cfg, m.w, Side(d, m.first), m.e)
    && (guarded && m.e.CommitResume? ==> Recheck(d.life, Side(d, m.first).driver.index))
  }

  function AfterMove(cfg: Config, r: RunId, guarded: bool, d: Duel, m: Move): Duel
    requires CanMove(cfg, r, guarded, d, m)
  {
    var l := LifeAfter(cfg, m.w, Side(d, m.first), m.e);
    var endings := d.endings + Bit(m.e.CommitFailure? || m.e.CommitCompletion?);
    if m.first then Duel(l, d.other, endings) else Duel(l.(driver := d.life.driver), l.driver, endings)
  }

  /** Where a sequence of moves leads, if each is possible in turn. */
  function Play(cfg: Config, r: RunId, guarded: bool, d: Duel, ms: seq<Move>): Option<Duel>
    decreases |ms|
  {
    if ms == [] then Some(d)
    else
      match Play(cfg, r, guarded, d, ms[..|ms| - 1])
      case None => None
      case Some(v) =>
        if CanMove(cfg, r, guarded, v, ms[|ms| - 1]) then Some(AfterMove(cfg, r, guarded, v, ms[|ms| - 1])) else None
  }

  predicate AskedTwice(calls: seq<Exchange>) {
    exists i, j :: 0 <= i < j < |calls| && calls[i].index == calls[j].index
  }

  predicate WrittenTwice(rows: seq<StepRow>) {
    exists i, j :: 0 <= i < j < |rows| && rows[i].index == rows[j].index
  }

  /** A step asked twice, two rows of one index, or a run ended twice. */
  predicate Repeats(d: Duel) {
    AskedTwice(d.life.notes.calls) || WrittenTwice(d.life.rows) || d.endings > 1
  }

  /** No continuation of the two handlers repeats anything. */
  ghost predicate Safe(cfg: Config, r: RunId, guarded: bool, d: Duel) {
    forall ms :: Play(cfg, r, guarded, d, ms).Some? ==> !Repeats(Play(cfg, r, guarded, d, ms).value)
  }

  /** The second handler has passed its checks on a reading of the run; its next write is RUNNING. */
  function Facing(now: Life, c: Caller, reading: Life): Duel {
    Duel(now, ResumeChecked(c, |reading.rows|, LastOutput(reading.rows)), Bit(Finished(now)))
  }

  function Written(d: Duel): Duel
    requires d.other.ResumeChecked?
  {
    Duel(d.life.(run := d.life.run.(status := Running), notes := d.life.notes.(resumes := d.life.notes.resumes + 1)),
         AtStep(d.other.caller, d.other.index, d.other.previous), d.endings)
  }

  // ---------------------------------------------------------------- when at most one handler is active

  /** A driver that will make no further call and write no further row unless it first commits a resume. */
  predicate Quiet(x: Driver) {
    x.NoDriver? || x.AuditOwed? || x.ResumeChecked?
  }

  ghost predicate Placed(cfg: Config, r: RunId, l: Life, x: Driver) {
    && (!Quiet(x) ==> OnTrack(cfg, r, l.(driver := x)))
    && (x.ResumeChecked? ==> l.run.slug in cfg.workflows && x.index <= |TraceOf(cfg, r, l.run)|
                             && x.previous == Handed(TraceOf(cfg, r, l.run), x.index))
  }

  /** The tables are on the reference loop, at most one of the two is active, and it stands where they end. */
  ghost predicate Paired(cfg: Config, r: RunId, l: Life, x: Driver, endings: nat) {
    && OnTrack(cfg, r, l.(driver := NoDriver))
    && Placed(cfg, r, l, l.driver) && Placed(cfg, r, l, x)
    && (Quiet(l.driver) || Quiet(x))
    && endings == Bit(Finished(l))
  }

  ghost predicate Orderly(cfg: Config, r: RunId, d: Duel) {
    Paired(cfg, r, d.life, d.other, d.endings)
  }

  lemma PairedEitherWay(cfg: Config, r: RunId, l: Life, x: Driver, endings: nat)
    requires Paired(cfg, r, l, x, endings)
    ensures Paired(cfg, r, l.(driver := x), l.driver, endings)
  {
  }

  predicate Settled(d: Duel) {
    !d.life.driver.ResumeChecked? && !d.other.ResumeChecked?
  }

  lemma OrderlyDoesNotRepeat(cfg: Config, r: RunId, d: Duel)
    requires Orderly(cfg, r, d)
    ensures !Repeats(d)
  {
    var l := d.life.(driver := NoDriver);
    RowsAreIndexed(cfg, r, l);
    CallsAreIndexed(cfg, r, l);
  }

  lemma CallsAreIndexed(cfg: Config, r: RunId, l: Life)
    requires OnTrack(cfg, r, l)
    ensures forall j :: 0 <= j < |l.notes.calls| ==> l.notes.calls[j].index == j
  {
    TraceIsChained(cfg, r, l.run);
    forall j | 0 <= j < |l.notes.calls| ensures l.notes.calls[j].index == j {
      assert Linked(cfg, r, cfg.workflows[l.run.slug], l.run.input, TraceOf(cfg, r, l.run), j);
      assert l.notes.calls[j] == TraceOf(cfg, r, l.run)[j];
    }
  }

  lemma DriverDropped(cfg: Config, r: RunId, l: Life)
    requires OnTrack(cfg, r, l)
    ensures OnTrack(cfg, r, l.(driver := NoDriver))
  {
  }

  /** What an active handler's step leaves to it and to the tables. */
  lemma ActiveStep(cfg: Config, r: RunId, w: World, l: Life, e: Event)
    requires IsRunEvent(e) && !e.CheckResume? && e.run == r && CanLife(cfg, w, l, e)
    requires !Quiet(l.driver) && OnTrack(cfg, r, l)
    ensures var m := LifeAfter(cfg, w, l, e);
      && OnTrack(cfg, r, m) && OnTrack(cfg, r, m.(driver := NoDriver)) && !m.driver.ResumeChecked?
      && TraceOf(cfg, r, m.run) == TraceOf(cfg, r, l.run) && m.run.slug == l.run.slug
      && !Finished(l) && Bit(Finished(m)) == Bit(e.CommitFailure? || e.CommitCompletion?)
  {
    StaysOnTrack(cfg, w, l, e);
    DriverDropped(cfg, r, LifeAfter(cfg, w, l, e));
  }

  /** A quiet handler's step: an audit row, a death, or a resume that passes the check. */
  lemma QuietStep(cfg: Config, r: RunId, w: World, l: Life, e: Event)
    requires IsRunEvent(e) && !e.CheckResume? && e.run == r && CanLife(cfg, w, l, e) && Quiet(l.driver)
    requires OnTrack(cfg, r, l.(driver := NoDriver)) && Placed(cfg, r, l, l.driver)
    requires e.CommitResume? ==> Recheck(l, l.driver.index)
    ensures var m := LifeAfter(cfg, w, l, e);
      && OnTrack(cfg, r, m.(driver := NoDriver))
      && (e.CommitResume? ==> OnTrack(cfg, r, m) && m.driver.AtStep? && !Finished(m) && l.run.status == Escalated)
      && (!e.CommitResume? ==>
        m.driver.NoDriver? && m.run == l.run && m.rows == l.rows && m.notes.calls == l.notes.calls)
      && TraceOf(cfg, r, m.run) == TraceOf(cfg, r, l.run) && m.run.slug == l.run.slug
  {
    var m := LifeAfter(cfg, w, l, e);
    assert TraceOf(cfg, r, m.run) == TraceOf(cfg, r, l.run);
    StepsMatch(cfg, r, l.(driver := NoDriver));
  }

  lemma BystanderStays(cfg: Config, r: RunId, l: Life, m: Life, x: Driver)
    requires Placed(cfg, r, l, x) && m.run.slug == l.run.slug && m.run.input == l.run.input
    requires Quiet(x) || (m.run == l.run && m.rows == l.rows && m.notes.calls == l.notes.calls)
    ensures Placed(cfg, r, m, x)
  {
    assert l.run.slug in cfg.workflows ==> TraceOf(cfg, r, m.run) == TraceOf(cfg, r, l.run);
  }

  lemma StepStaysPaired(cfg: Config, r: RunId, w: World, l: Life, e: Event, x: Driver, endings: nat)
    requires IsRunEvent(e) && !e.CheckResume? && e.run == r && CanLife(cfg, w, l, e)
    requires Paired(cfg, r, l, x, endings) && (e.CommitResume? ==> Recheck(l, l.driver.index))
    ensures Paired(cfg, r, LifeAfter(cfg, w, l, e), x, endings + Bit(e.CommitFailure? || e.CommitCompletion?))
    ensures !LifeAfter(cfg, w, l, e).driver.ResumeChecked?
  {
    var m := LifeAfter(cfg, w, l, e);
    if Quiet(l.driver) {
      QuietStep(cfg, r, w, l, e);
    } else {
      ActiveStep(cfg, r, w, l, e);
    }
    BystanderStays(cfg, r, l, m, x);
  }

  lemma MoveStaysOrderly(cfg: Config, r: RunId, guarded: bool, d: Duel, m: Move)
    requires Orderly(cfg, r, d) && CanMove(cfg, r, guarded, d, m) && (guarded || Settled(d))
    ensures Orderly(cfg, r, AfterMove(cfg, r, guarded, d, m))
    ensures Settled(d) ==> Settled(AfterMove(cfg, r, guarded, d, m))
  {
    if m.first {
      StepStaysPaired(cfg, r, m.w, d.life, m.e, d.other, d.endings);
    } else {
      PairedEitherWay(cfg, r, d.life, d.other, d.endings);
      var l := Side(d, false);
      StepStaysPaired(cfg, r, m.w, l, m.e, d.life.driver, d.endings);
      PairedEitherWay(cfg, r, LifeAfter(cfg, m.w, l, m.e), d.life.driver, AfterMove(cfg, r, guarded, d, m).endings);
    }
  }

  lemma {:induction false} PlayStaysOrderly(cfg: Config, r: RunId, guarded: bool, d: Duel, ms: seq<Move>)
    requires Orderly(cfg, r, d) && Play(cfg, r, guarded, d, ms).Some? && (guarded || Settled(d))
    ensures var v := Play(cfg, r, guarded, d, ms).value; Orderly(cfg, r, v) && (Settled(d) ==> Settled(v))
    decreases |ms|
  {
    if ms != [] {
      var n := |ms| - 1;
      PlayStaysOrderly(cfg, r, guarded, d, ms[..n]);
      MoveStaysOrderly(cfg, r, guarded, Play(cfg, r, guarded, d, ms[..n]).value, ms[n]);
    }
  }

  lemma OrderlyIsSafe(cfg: Config, r: RunId, guarded: bool, d: Duel)
    requires Orderly(cfg, r, d) && (guarded || Settled(d))
    ensures Safe(cfg, r, guarded, d)
  {
    forall ms | Play(cfg, r, guarded, d, ms).Some? ensures !Repeats(Play(cfg, r, guarded, d, ms).value) {
      PlayStaysOrderly(cfg, r, guarded, d, ms);
      OrderlyDoesNotRepeat(cfg, r, Play(cfg, r, guarded, d, ms).value);
    }
  }

  // ---------------------------------------------------------------- when a stale resume is safe

  ghost predicate Reading(cfg: Config, r: RunId, reading: Life, now: Life) {
    && OnTrack(cfg, r, reading) && reading.run.status == Escalated
    && OnTrack(cfg, r, now) && LifeExtends(reading, now)
  }

  /** The other handler took the run over and was gone again before it asked anything. */
  predicate DiedBeforeAsking(l: Life, index: nat) {
    l.driver.NoDriver? && l.run.status == Running && |l.rows| == index && |l.notes.calls| == index
  }

  lemma ReadingFacts(cfg: Config, r: RunId, reading: Life, now: Life)
    requires Reading(cfg, r, reading, now)
    ensures var k := |reading.rows|; var trace := TraceOf(cfg, r, now.run);
      && 0 < k <= |now.rows| <= |trace| <= |StepsOf(cfg, now)| && |reading.notes.calls| == k
      && LastOutput(reading.rows) == Handed(trace, k) && trace[k - 1].answer.Reply?
  {
    LastOutputIsHanded(cfg, r, reading);
    StepsMatch(cfg, r, now);
    assert TraceOf(cfg, r, reading.run) == TraceOf(cfg, r, now.run);
  }

  /** A handler whose first session was overtaken is still orderly if it will check again. */
  lemma FacingIsOrderly(cfg: Config, r: RunId, reading: Life, now: Life, c: Caller)
    requires Reading(cfg, r, reading, now)
    ensures Orderly(cfg, r, Facing(now, c, reading))
  {
    ReadingFacts(cfg, r, reading, now);
    DriverDropped(cfg, r, now);
  }

  lemma UnhinderedIsOrderly(cfg: Config, r: RunId, reading: Life, now: Life, c: Caller)
    requires Reading(cfg, r, reading, now) && !now.driver.ResumeChecked?
    requires Recheck(now, |reading.rows|) || DiedBeforeAsking(now, |reading.rows|)
    ensures Orderly(cfg, r, Written(Facing(now, c, reading))) && Settled(Written(Facing(now, c, reading)))
  {
    ReadingFacts(cfg, r, reading, now);
    StepsMatch(cfg, r, now);
    assert TraceOf(cfg, r, now.run.(status := Running)) == TraceOf(cfg, r, now.run);
  }

  const NOWHERE := Genesis(Directory(map[], map[]))

  lemma Played(cfg: Config, r: RunId, guarded: bool, d: Duel, ms: seq<Move>, v: Duel, m: Move)
    requires Play(cfg, r, guarded, d, ms) == Some(v) && CanMove(cfg, r, guarded, v, m)
    ensures Play(cfg, r, guarded, d, ms + [m]) == Some(AfterMove(cfg, r, guarded, v, m))
  {
    assert (ms + [m])[..|ms|] == ms;
  }

  lemma RepeatIsUnsafe(cfg: Config, r: RunId, d: Duel, ms: seq<Move>, v: Duel)
    requires Play(cfg, r, false, d, ms) == Some(v) && Repeats(v)
    ensures !Safe(cfg, r, false, d)
  {
  }

  /** The second handler stands before a step that was asked already. */
  lemma AskingAgainIsUnsafe(cfg: Config, r: RunId, d: Duel, j: nat)
    requires d.other.AtStep? && d.other.index < |StepsOf(cfg, d.life)|
    requires j < |d.life.notes.calls| && d.life.notes.calls[j].index == d.other.index
    ensures !Safe(cfg, r, false, d)
  {
    var m := Move(false, AskAgent(r), NOWHERE);
    Played(cfg, r, false, d, [], d, m);
    var v := AfterMove(cfg, r, false, d, m);
    assert v.life.notes.calls[j].index == v.life.notes.calls[|d.life.notes.calls|].index;
    RepeatIsUnsafe(cfg, r, d, [] + [m], v);
  }

  /** Both handlers stand before the same step, or both behind the last one. */
  lemma TwoAtOneStepIsUnsafe(cfg: Config, r: RunId, d: Duel)
    requires d.life.driver.AtStep? && d.other.AtStep? && d.life.driver.index == d.other.index
    ensures !Safe(cfg, r, false, d)
  {
    var e := if d.other.index < |StepsOf(cfg, d.life)| then AskAgent(r) else CommitCompletion(r);
    var a, b := Move(true, e, NOWHERE), Move(false, e, NOWHERE);
    var u := AfterMove(cfg, r, false, d, a);
    Played(cfg, r, false, d, [], d, a);
    Played(cfg, r, false, d, [] + [a], u, b);
    var v := AfterMove(cfg, r, false, u, b);
    if e.AskAgent? {
      var n := |d.life.notes.calls|;
      assert v.life.notes.calls[n].index == v.life.notes.calls[n + 1].index;
    }
    RepeatIsUnsafe(cfg, r, d, [] + [a] + [b], v);
  }

  lemma EndingAgainIsUnsafe(cfg: Config, r: RunId, d: Duel)
    requires d.other.AtStep? && d.other.index >= |StepsOf(cfg, d.life)| && d.endings >= 1
    ensures !Safe(cfg, r, false, d)
  {
    var m := Move(false, CommitCompletion(r), NOWHERE);
    Played(cfg, r, false, d, [], d, m);
    RepeatIsUnsafe(cfg, r, d, [] + [m], AfterMove(cfg, r, false, d, m));
  }

  /** The other handler is between its own two sessions too. */
  lemma ResumingAlongsideIsUnsafe(cfg: Config, r: RunId, d: Duel)
    requires d.life.driver.ResumeChecked? && d.other.AtStep? && d.life.driver.index == d.other.index
    ensures !Safe(cfg, r, false, d)
  {
    var m := Move(true, CommitResume(r), NOWHERE);
    Played(cfg, r, false, d, [], d, m);
    var u := AfterMove(cfg, r, false, d, m);
    TwoAtOneStepIsUnsafe(cfg, r, u);
    var ms :| Play(cfg, r, false, u, ms).Some? && Repeats(Play(cfg, r, false, u, ms).value);
    PlayJoins(cfg, r, false, d, [] + [m], u, ms);
    RepeatIsUnsafe(cfg, r, d, [] + [m] + ms, Play(cfg, r, false, u, ms).value);
  }

  lemma {:induction false} PlayJoins(cfg: Config, r: RunId, guarded: bool, d: Duel, ms: seq<Move>, u: Duel,
                                     ns: seq<Move>)
    requires Play(cfg, r, guarded, d, ms) == Some(u)
    ensures Play(cfg, r, guarded, d, ms + ns) == Play(cfg, r, guarded, u, ns)
    decreases |ns|
  {
    if ns == [] {
      assert ms + ns == ms;
    } else {
      var n := |ns| - 1;
      assert (ms + ns)[..|ms + ns| - 1] == ms + ns[..n];
      PlayJoins(cfg, r, guarded, d, ms, u, ns[..n]);
    }
  }

  lemma HinderedIsUnsafe(cfg: Config, r: RunId, reading: Life, now: Life, c: Caller)
    requires Reading(cfg, r, reading, now)
    requires now.driver.ResumeChecked? || !(Recheck(now, |reading.rows|) || DiedBeforeAsking(now, |reading.rows|))
    ensures !Safe(cfg, r, false, Written(Facing(now, c, reading)))
  {
    ReadingFacts(cfg, r, reading, now);
    StepsMatch(cfg, r, now);
    var d, k := Written(Facing(now, c, reading)), |reading.rows|;
    assert StepsOf(cfg, d.life) == StepsOf(cfg, now);
    if |now.notes.calls| > k {
      CallsAreIndexed(cfg, r, now);
      AskingAgainIsUnsafe(cfg, r, d, k);
    } else if now.driver.AtStep? {
      TwoAtOneStepIsUnsafe(cfg, r, d);
    } else if now.driver.ResumeChecked? {
      ResumingAlongsideIsUnsafe(cfg, r, d);
    } else {
      EndingAgainIsUnsafe(cfg, r, d);
    }
  }

  /** The code as it is. The handler read the run as `reading` and commits RUNNING to it as `now`, with the
      other handler wherever it stands. No continuation of the two asks a step twice, writes two rows of one
      index or ends the run twice if and only if the other is not about to write RUNNING as well, and either
      the first session's check still holds (ESCALATED, no new row), which the handler could make
      again, or the other died between its own RUNNING and its first call. */
  lemma StaleResumeIsSafeExactly(cfg: Config, r: RunId, reading: Life, now: Life, c: Caller)
    requires Reading(cfg, r, reading, now)
    ensures Safe(cfg, r, false, Written(Facing(now, c, reading)))
      <==> (!now.driver.ResumeChecked?
            && (Recheck(now, |reading.rows|) || DiedBeforeAsking(now, |reading.rows|)))
  {
    if !now.driver.ResumeChecked? && (Recheck(now, |reading.rows|) || DiedBeforeAsking(now, |reading.rows|)) {
      UnhinderedIsOrderly(cfg, r, reading, now, c);
      OrderlyIsSafe(cfg, r, false, Written(Facing(now, c, reading)));
    } else {
      HinderedIsUnsafe(cfg, r, reading, now, c);
    }
  }

  /** If both handlers made the check again together with writing RUNNING, every continuation would be safe,
      whatever happened since the readings. */
  lemma RecheckingIsSafe(cfg: Config, r: RunId, reading: Life, now: Life, c: Caller)
    requires Reading(cfg, r, reading, now)
    ensures Safe(cfg, r, true, Facing(now, c, reading))
  {
    FacingIsOrderly(cfg, r, reading, now, c);
    OrderlyIsSafe(cfg, r, true, Facing(now, c, reading));
  }

  // ---------------------------------------------------------------- the races themselves

  /** Two handlers read one approved pause and both commit RUNNING; then each runs the next step. Nothing had
      been written or asked when the second one committed. */
  lemma InterleavedResumesRepeatAStep(cfg: Config, r: RunId, l: Life, a: Caller, b: Caller, x: Exchange)
    returns (ms: seq<Move>, v: Duel)
    requires OnTrack(cfg, r, l) && l.run.status == Escalated && |l.rows| < |StepsOf(cfg, l)|
    requires l.driver == ResumeChecked(a, |l.rows|, LastOutput(l.rows))
    requires x == Ask(cfg, r, StepsOf(cfg, l), l.run.input, |l.rows|, LastOutput(l.rows))
    requires x.answer.Reply? && PauseReason(cfg, x.department, x.answer.text).None?
    ensures Play(cfg, r, false, Facing(l, b, l), ms) == Some(v)
    ensures v.life.rows == l.rows + [RowFor(cfg, x)] + [RowFor(cfg, x)]
    ensures v.life.notes.calls == l.notes.calls + [x] + [x]
    ensures WrittenTwice(v.life.rows) && AskedTwice(v.life.notes.calls)
  {
    var d := Facing(l, b, l);
    var ls, d2 := BothCommitResume(cfg, r, d);
    var ns, d4 := OneHandlerDrivesOn(cfg, r, d2, false, x);
    PlayJoins(cfg, r, false, d, ls, d2, ns);
    var os;
    os, v := OneHandlerDrivesOn(cfg, r, d4, true, x);
    PlayJoins(cfg, r, false, d, ls + ns, d4, os);
    ms := ls + ns + os;
    Twins(l.rows, RowFor(cfg, x), l.notes.calls, x);
  }

  lemma Twins(rows: seq<StepRow>, row: StepRow, calls: seq<Exchange>, x: Exchange)
    ensures WrittenTwice(rows + [row] + [row]) && AskedTwice(calls + [x] + [x])
  {
    var s, t := rows + [row] + [row], calls + [x] + [x];
    assert s[|rows|].index == s[|rows| + 1].index && t[|calls|].index == t[|calls| + 1].index;
  }

  lemma BothCommitResume(cfg: Config, r: RunId, d: Duel) returns (ms: seq<Move>, v: Duel)
    requires d.life.driver.ResumeChecked? && d.other.ResumeChecked?
    ensures Play(cfg, r, false, d, ms) == Some(v)
    ensures v.life.rows == d.life.rows && v.life.notes.calls == d.life.notes.calls
    ensures v.life.run == d.life.run.(status := Running)
    ensures var x := d.life.driver; v.life.driver == AtStep(x.caller, x.index, x.previous)
    ensures var x := d.other; v.other == AtStep(x.caller, x.index, x.previous)
  {
    var a, b := Move(true, CommitResume(r), NOWHERE), Move(false, CommitResume(r), NOWHERE);
    var u := AfterMove(cfg, r, false, d, a);
    Played(cfg, r, false, d, [], d, a);
    v := AfterMove(cfg, r, false, u, b);
    Played(cfg, r, false, d, [] + [a], u, b);
    ms := [] + [a] + [b];
  }

  /** One of the two asks the step it stands before and writes its row, the other waiting. */
  lemma OneHandlerDrivesOn(cfg: Config, r: RunId, d: Duel, first: bool, x: Exchange) returns (ms: seq<Move>, v: Duel)
    requires Side(d, first).driver.AtStep? && Side(d, first).driver.index < |StepsOf(cfg, d.life)|
    requires var at := Side(d, first).driver;
      x == Ask(cfg, r, StepsOf(cfg, d.life), d.life.run.input, at.index, at.previous)
    requires x.answer.Reply? && PauseReason(cfg, x.department, x.answer.text).None?
    ensures Play(cfg, r, false, d, ms) == Some(v)
    ensures v.life.rows == d.life.rows + [RowFor(cfg, x)] && v.life.notes.calls == d.life.notes.calls + [x]
    ensures v.life.run == d.life.run && Side(v, !first).driver == Side(d, !first).driver
  {
    var a, b := Move(first, AskAgent(r), NOWHERE), Move(first, CommitRow(r), NOWHERE);
    var u := AfterMove(cfg, r, false, d, a);
    Played(cfg, r, false, d, [], d, a);
    v := AfterMove(cfg, r, false, u, b);
    Played(cfg, r, false, d, [] + [a], u, b);
    ms := [] + [a] + [b];
  }

  /** The race itself: two handlers read the same approved pause; the first resumes and runs the next
      step, then the second does the same from its own reading. Whenever that step replies without
      pausing, the run ends up with the step asked twice and two rows of the same index. */
  lemma RacingResumesRepeatAStep(cfg: Config, w: World, r: RunId, l: Life, a: string, b: string, x: Exchange)
    returns (first: Life, second: Life)
    requires OnTrack(cfg, r, l) && l.driver.NoDriver?
    requires CanResume(cfg, w, l, a) && CanResume(cfg, w, l, b) && |l.rows| < |StepsOf(cfg, l)|
    requires x == Ask(cfg, r, StepsOf(cfg, l), l.run.input, |l.rows|, LastOutput(l.rows))
    requires x.answer.Reply? && PauseReason(cfg, x.department, x.answer.text).None?
    ensures first.rows == l.rows + [RowFor(cfg, x)] && OnTrack(cfg, r, first)
    ensures second.rows == l.rows + [RowFor(cfg, x)] + [RowFor(cfg, x)]
    ensures second.notes.calls == l.notes.calls + [x] + [x]
    ensures WrittenTwice(second.rows) && AskedTwice(second.notes.calls) && !OnTrack(cfg, r, second)
  {
    first := OneStepResume(cfg, w, r, l, l, a, x);
    second := OneStepResume(cfg, w, r, l, first, b, x);
    NextOfTrace(cfg, r, l, x);
    NextIsRecorded(cfg, r, l, first, x);
    Twins(l.rows, RowFor(cfg, x), l.notes.calls, x);
    WrittenTwiceIsOffTrack(cfg, r, second);
  }

  lemma WrittenTwiceIsOffTrack(cfg: Config, r: RunId, l: Life)
    requires WrittenTwice(l.rows)
    ensures !OnTrack(cfg, r, l)
  {
    if OnTrack(cfg, r, l) {
      RowsAreIndexed(cfg, r, l);
      assert false;
    }
  }

  lemma NextOfTrace(cfg: Config, r: RunId, l: Life, x: Exchange)
    requires OnTrack(cfg, r, l) && l.run.status == Escalated && |l.rows| < |StepsOf(cfg, l)|
    requires x == Ask(cfg, r, StepsOf(cfg, l), l.run.input, |l.rows|, LastOutput(l.rows))
    ensures var trace := TraceOf(cfg, r, l.run); |l.rows| < |trace| && trace[|l.rows|] == x
  {
    StepsMatch(cfg, r, l);
    LastOutputIsHanded(cfg, r, l);
    var k, trace := |l.rows|, TraceOf(cfg, r, l.run);
    assert k < |trace|;
    assert Linked(cfg, r, StepsOf(cfg, l), l.run.input, trace, k);
  }

  /** A life that extends l by the next call of the trace and its row is on track. */
  lemma NextIsRecorded(cfg: Config, r: RunId, l: Life, m: Life, x: Exchange)
    requires OnTrack(cfg, r, l) && l.run.status == Escalated && x.answer.Reply? && x.index == |l.rows|
    requires |l.rows| < |TraceOf(cfg, r, l.run)| && TraceOf(cfg, r, l.run)[|l.rows|] == x
    requires |l.rows| < |StepsOf(cfg, l)| && PauseReason(cfg, x.department, x.answer.text).None?
    requires m.rows == l.rows + [RowFor(cfg, x)] && m.notes.calls == l.notes.calls + [x]
    requires m.run == l.run.(status := Running)
    requires m.driver.AtStep? && m.driver.index == |l.rows| + 1 && m.driver.previous == x.answer.text
    ensures OnTrack(cfg, r, m)
  {
    var k, trace := |l.rows|, TraceOf(cfg, r, l.run);
    assert trace[..k + 1] == trace[..k] + [trace[k]];
    assert TraceOf(cfg, r, m.run) == trace;
  }

  /** One handler's run from its reading `seen` to its first row, on the tables `tables`. */
  lemma OneStepResume(cfg: Config, w: World, r: RunId, seen: Life, tables: Life, user: UserId, x: Exchange)
    returns (after: Life)
    requires seen.driver.NoDriver? && CanResume(cfg, w, seen, user) && |seen.rows| < |StepsOf(cfg, seen)|
    requires tables.run.slug == seen.run.slug && tables.run.input == seen.run.input
    requires x == Ask(cfg, r, StepsOf(cfg, seen), seen.run.input, |seen.rows|, LastOutput(seen.rows))
    requires x.answer.Reply? && PauseReason(cfg, x.department, x.answer.text).None?
    ensures after.rows == tables.rows + [RowFor(cfg, x)] && after.notes.calls == tables.notes.calls + [x]
    ensures after.run == tables.run.(status := Running)
    ensures after.driver.AtStep? && after.driver.index == |seen.rows| + 1 && after.driver.previous == x.answer.text
  {
    var checked := LifeAfter(cfg, w, seen, CheckResume(r, user));
    var resumed := LifeAfter(cfg, w, tables.(driver := checked.driver), CommitResume(r));
    var asked := LifeAfter(cfg, w, resumed, AskAgent(r));
    after := LifeAfter(cfg, w, asked, CommitRow(r));
  }
}
