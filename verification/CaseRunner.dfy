/** The step and case runners as they are written: accumulating reports, a
threaded error, and a cleanup deferred to every exit. */
module CaseRunner {

  import opened Errors
  import opened Objects
  import opened Lifecycle
  import opened Reports
  import opened CaseTrace
  import opened KubeService
  import opened Actions

  /** The service and a step's reports are where running these actions leads. */
  ghost predicate Ran(svc: Service, ctx: Context, w0: World, done: seq<Action>, reports: seq<ActionReport>, err: Err)
    reads svc.server, svc.applied
  {
    Batch(svc.World(), reports, err) == RunActions(KitOf(svc.env), ctx, done, w0)
  }

  /** One action appended to what a step has run so far. */
  method Append(svc: Service, ctx: Context, ghost w0: World, ghost done: seq<Action>, act: Action,
                reports: seq<ActionReport>)
    returns (reports': seq<ActionReport>, err: Err)
    requires svc.Valid() && Ran(svc, ctx, w0, done, reports, {})
    modifies svc.server, svc.applied
    ensures Ran(svc, ctx, w0, done + [act], reports', err)
  {
    hide Perform;
    hide RunActions;
    hide Finished;
    ghost var before := svc.World();
    var report, e := RunAction(svc, ctx, act);
    KitUnfolds(svc.env, ctx, act, before);
    RunOneMore(KitOf(svc.env), ctx, done, act, w0);
    reports', err := reports + [report], e;
  }

  /** A block that is not configured, or comes after a failure, adds nothing. */
  lemma BlockSkipped(svc: Service, ctx: Context, w0: World, done: seq<Action>, more: seq<Action>,
                     reports: seq<ActionReport>, err: Err)
    requires Ran(svc, ctx, w0, done, reports, err)
    requires more == [] || (|more| == 1 && err != {})
    ensures Ran(svc, ctx, w0, done + more, reports, err)
  {
    hide RunActions;
    if more == [] {
      assert done + more == done;
    } else {
      assert more == [more[0]];
      RunOneMore(KitOf(svc.env), ctx, done, more[0], w0);
    }
  }

  /** The assert, logs, exec and delete blocks of a step. */
  method RunLateActions(svc: Service, ctx: Context, st: Step, ghost w0: World, ghost early: seq<Action>,
                        earlyReports: seq<ActionReport>, earlyErr: Err)
    returns (reports: seq<ActionReport>, err: Err)
    requires svc.Valid() && Ran(svc, ctx, w0, early, earlyReports, earlyErr)
    modifies svc.server, svc.applied
    ensures Ran(svc, ctx, w0,
              early
              + (if st.check.Some? then [DoAssert(st.check.value)] else [])
              + (if st.logs.Some? then [DoLogs(st.logs.value)] else [])
              + (if st.exec.Some? then [DoExec(st.exec.value)] else [])
              + (if st.delete.Some? then [DoDelete(st.delete.value)] else []), reports, err)
  {
    hide Ran;
    ghost var done := early;
    reports, err := earlyReports, earlyErr;

    if err == {} && st.check.Some? {
      reports, err := Append(svc, ctx, w0, done, DoAssert(st.check.value), reports);
    } else {
      BlockSkipped(svc, ctx, w0, done, if st.check.Some? then [DoAssert(st.check.value)] else [], reports, err);
    }
    done := done + (if st.check.Some? then [DoAssert(st.check.value)] else []);

    if err == {} && st.logs.Some? {
      reports, err := Append(svc, ctx, w0, done, DoLogs(st.logs.value), reports);
    } else {
      BlockSkipped(svc, ctx, w0, done, if st.logs.Some? then [DoLogs(st.logs.value)] else [], reports, err);
    }
    done := done + (if st.logs.Some? then [DoLogs(st.logs.value)] else []);

    if err == {} && st.exec.Some? {
      reports, err := Append(svc, ctx, w0, done, DoExec(st.exec.value), reports);
    } else {
      BlockSkipped(svc, ctx, w0, done, if st.exec.Some? then [DoExec(st.exec.value)] else [], reports, err);
    }
    done := done + (if st.exec.Some? then [DoExec(st.exec.value)] else []);

    if err == {} && st.delete.Some? {
      reports, err := Append(svc, ctx, w0, done, DoDelete(st.delete.value), reports);
    } else {
      BlockSkipped(svc, ctx, w0, done, if st.delete.Some? then [DoDelete(st.delete.value)] else [], reports, err);
    }
    done := done + (if st.delete.Some? then [DoDelete(st.delete.value)] else []);
  }

  /** Seven guarded blocks in the fixed order, each skipped once an error is set. */
  method RunStepActions(svc: Service, ctx: Context, st: Step) returns (reports: seq<ActionReport>, err: Err)
    requires svc.Valid()
    modifies svc.server, svc.applied
    ensures Batch(svc.World(), reports, err) == RunActions(KitOf(svc.env), ctx, Configured(st), old(svc.World()))
  {
    ghost var w0 := svc.World();
    ghost var done: seq<Action> := [];
    reports, err := [], {};
    assert Ran(svc, ctx, w0, done, reports, err);
    hide Ran;

    if st.ensure.Some? {
      reports, err := Append(svc, ctx, w0, done, DoEnsure(st.ensure.value), reports);
    } else {
      BlockSkipped(svc, ctx, w0, done, [], reports, err);
    }
    done := if st.ensure.Some? then [DoEnsure(st.ensure.value)] else [];
    assert [] + done == done;

    if err == {} && st.patch.Some? {
      reports, err := Append(svc, ctx, w0, done, DoPatch(st.patch.value), reports);
    } else {
      BlockSkipped(svc, ctx, w0, done, if st.patch.Some? then [DoPatch(st.patch.value)] else [], reports, err);
    }
    done := done + (if st.patch.Some? then [DoPatch(st.patch.value)] else []);

    if err == {} && st.waiting.Some? {
      reports, err := Append(svc, ctx, w0, done, DoWait(st.waiting.value), reports);
    } else {
      BlockSkipped(svc, ctx, w0, done, if st.waiting.Some? then [DoWait(st.waiting.value)] else [], reports, err);
    }
    done := done + (if st.waiting.Some? then [DoWait(st.waiting.value)] else []);

    reports, err := RunLateActions(svc, ctx, st, w0, done, reports, err);
    RanAll(svc, ctx, w0, Configured(st), reports, err);
  }

  lemma RanAll(svc: Service, ctx: Context, w0: World, done: seq<Action>, reports: seq<ActionReport>, err: Err)
    requires Ran(svc, ctx, w0, done, reports, err)
    ensures Batch(svc.World(), reports, err) == RunActions(KitOf(svc.env), ctx, done, w0)
  {
  }

  function Flag(b: bool): nat {
    if b then 1 else 0
  }

  lemma ConfiguredCount(st: Step)
    ensures |Configured(st)| == Flag(st.ensure.Some?) + Flag(st.patch.Some?) + Flag(st.waiting.Some?)
      + Flag(st.check.Some?) + Flag(st.logs.Some?) + Flag(st.exec.Some?) + Flag(st.delete.Some?)
  {
  }

  /** CountActions of a step. */
  method CountConfigured(st: Step) returns (count: nat)
    ensures count == |Configured(st)|
  {
    ConfiguredCount(st);
    hide Configured;
    count := 0;
    if st.ensure.Some? {
      count := count + 1;
    }
    if st.patch.Some? {
      count := count + 1;
    }
    if st.waiting.Some? {
      count := count + 1;
    }
    if st.check.Some? {
      count := count + 1;
    }
    if st.logs.Some? {
      count := count + 1;
    }
    if st.exec.Some? {
      count := count + 1;
    }
    if st.delete.Some? {
      count := count + 1;
    }
  }

  method RunOneStep(svc: Service, ctx: Context, st: MaybeStep) returns (report: StepReport, err: Err)
    requires svc.Valid()
    modifies svc.server, svc.applied
    ensures Span(st, old(svc.World()), svc.World(), report, err) == RunStep(KitOf(svc.env), ctx, st, old(svc.World()))
  {
    hide RunActions;
    hide Configured;
    hide KitOf;
    hide Tally;
    if st.None? {
      return NilStepReport, {NilStep};
    }
    var s := st.value;
    var actions, actErr := RunStepActions(svc, StepContext(ctx, s), s);
    var passed, failed := CountActions(actions);
    var stats := ObjectStats(actions);
    var total := CountConfigured(s);
    report := StepReport(s.name, s.optional, Unset, actErr, passed, failed, total, stats, actions);
    if actErr != {} && s.optional {
      return report.(state := Skipped), {};
    }
    if actErr != {} {
      return report.(state := Failed), actErr;
    }
    return report.(state := Passed), {};
  }

  /** runSteps: in order, up to the first error. */
  method RunHooks(svc: Service, ctx: Context, steps: seq<MaybeStep>)
    returns (reports: seq<StepReport>, err: Err, ghost spans: seq<Span>)
    requires svc.Valid()
    modifies svc.server, svc.applied
    ensures spans == RunSteps(KitOf(svc.env), ctx, steps, old(svc.World()))
    ensures svc.World() == EndOf(old(svc.World()), spans) && reports == ReportsOf(spans) && err == ErrOf(spans)
  {
    hide RunStep;
    hide RunSteps;
    hide KitOf;
    ghost var kit, w0 := KitOf(svc.env), svc.World();
    reports, err, spans := [], {}, [];
    assert steps[0..] == steps;
    for n := 0 to |steps|
      invariant RunSteps(kit, ctx, steps, w0) == spans + RunSteps(kit, ctx, steps[n..], svc.World())
      invariant svc.World() == EndOf(w0, spans) && reports == ReportsOf(spans) && err == ErrOf(spans) == {}
    {
      ghost var pre := svc.World();
      RunStepsUnfold(kit, ctx, steps, n, pre);
      var report, stepErr := RunOneStep(svc, ctx, steps[n]);
      ghost var span := Span(steps[n], pre, svc.World(), report, stepErr);
      reports := reports + [report];
      ghost var rest := RunSteps(kit, ctx, steps[n + 1..], svc.World());
      assert stepErr == {} ==> spans + ([span] + rest) == spans + [span] + rest;
      spans := spans + [span];
      if stepErr != {} {
        return reports, stepErr, spans;
      }
    }
    NoStepsLeft(kit, ctx, steps, svc.World());
    assert spans + [] == spans;
  }

  lemma RunStepsUnfold(kit: Kit, ctx: Context, steps: seq<MaybeStep>, n: nat, w: World)
    requires n < |steps|
    ensures var span := RunStep(kit, ctx, steps[n], w);
            RunSteps(kit, ctx, steps[n..], w)
            == if span.err != {} then [span] else [span] + RunSteps(kit, ctx, steps[n + 1..], span.post)
  {
    hide RunStep;
    assert steps[n..][1..] == steps[n + 1..] && steps[n..][0] == steps[n];
  }

  lemma NoStepsLeft(kit: Kit, ctx: Context, steps: seq<MaybeStep>, w: World)
    ensures RunSteps(kit, ctx, steps[|steps|..], w) == []
  {
  }

  /** One main step with the case hooks around it. */
  method RunStepWithHooks(svc: Service, ctx: Context, c: Case, st: MaybeStep)
    returns (report: StepReport, hooks: HooksReport, err: Err, ghost round: Round)
    requires svc.Valid()
    modifies svc.server, svc.applied
    ensures round == RunRound(KitOf(svc.env), ctx, c, st, old(svc.World()))
    ensures svc.World() == RoundEnd(round) && err == RoundErr(round)
    ensures report == MainReport(round) && hooks == HooksReport(ReportsOf(round.before), ReportsOf(round.after))
  {
    hide RunStep;
    hide RunSteps;
    hide KitOf;
    hide ReportsOf;
    ghost var w0 := svc.World();
    var beforeReports, beforeErr, before := RunHooks(svc, ctx, c.beforeEach);
    err := beforeErr;
    ghost var main := None;
    if beforeErr != {} {
      report := SkippedReport(st, beforeErr);
    } else {
      ghost var pre := svc.World();
      var stepErr;
      report, stepErr := RunOneStep(svc, ctx, st);
      main := Some(Span(st, pre, svc.World(), report, stepErr));
      err := err + stepErr;
    }
    var afterReports, afterErr, after := RunHooks(svc, ctx, c.afterEach);
    err := err + afterErr;
    hooks := HooksReport(beforeReports, afterReports);
    round := Round(st, w0, before, main, after);
  }

  /** appendHooksReport: nothing is recorded for a round without hook reports. */
  method AppendHooks(report: CaseReport, hooks: HooksReport) returns (grown: CaseReport)
    ensures grown == report.(hooks := grown.hooks)
    ensures forall before, after | report.hooks == HooksOf(before, after) ::
      grown.hooks == HooksOf(before + hooks.before, after + hooks.after)
  {
    if |hooks.before| == 0 && |hooks.after| == 0 {
      assert forall s: seq<StepReport> :: s + hooks.before == s && s + hooks.after == s;
      return report;
    }
    var so := if report.hooks.None? then HooksReport([], []) else report.hooks.value;
    grown := report.(hooks := Some(HooksReport(so.before + hooks.before, so.after + hooks.after)));
  }

  lemma ReportGrows(c: Case, rounds: seq<Round>, r: Round)
    ensures var all := rounds + [r];
            && MainReports(all) == MainReports(rounds) + [MainReport(r)]
            && BeforeReports(all) == BeforeReports(rounds) + ReportsOf(r.before)
            && AfterReports(all) == AfterReports(rounds) + ReportsOf(r.after)
  {
    hide MainReport;
    hide ReportsOf;
    var all := rounds + [r];
    assert all[..|all| - 1] == rounds;
  }

  /** One round recorded: hooks, then the step, then the recount. */
  method RecordRound(c: Case, ghost rounds: seq<Round>, ghost r: Round, report: CaseReport,
                     stepReport: StepReport, hooks: HooksReport)
    returns (grown: CaseReport)
    requires report == RunningReport(c, rounds)
    requires stepReport == MainReport(r) && hooks == HooksReport(ReportsOf(r.before), ReportsOf(r.after))
    ensures grown == RunningReport(c, rounds + [r])
  {
    hide MainReport;
    hide ReportsOf;
    ReportGrows(c, rounds, r);
    grown := AppendHooks(report, hooks);
    grown := grown.(steps := grown.steps + [stepReport]);
    var passed, failed := CountOutcomes(StepStates(grown.steps));
    grown := grown.(passed := passed, failed := failed);
  }

  /** service.run: the steps in order until one fails, and the cleanup on every exit
      of a case that has steps. */
  method RunCaseSteps(svc: Service, ctx: Context, c: Case)
    returns (report: CaseReport, err: Err, ghost rounds: seq<Round>)
    requires svc.Valid()
    modifies svc.server, svc.applied
    ensures CaseRun(rounds, svc.World(), report, err) == RunCase(KitOf(svc.env), ctx, c, old(svc.World()))
  {
    hide RunRound;
    hide RunningReport;
    hide RoundEnd;
    hide RoundErr;
    hide KitOf;
    hide Cleanup;
    ghost var kit, w0 := KitOf(svc.env), svc.World();
    report := NewReport(c);
    err, rounds := {}, [];
    if c.steps == [] {
      return;
    }
    assert c.steps[0..] == c.steps;
    var n := 0;
    while n < |c.steps|
      invariant 0 <= n <= |c.steps| && report == RunningReport(c, rounds)
      invariant svc.World() == RoundsEnd(w0, rounds) && err == RoundsErr(rounds)
      invariant err == {} ==>
        RunRounds(kit, ctx, c, c.steps, w0) == rounds + RunRounds(kit, ctx, c, c.steps[n..], svc.World())
      invariant err != {} ==> n == |c.steps| && RunRounds(kit, ctx, c, c.steps, w0) == rounds
    {
      assert c.steps[n..][1..] == c.steps[n + 1..];
      var stepReport, hooks, stepErr, round := RunStepWithHooks(svc, ctx, c, c.steps[n]);
      report := RecordRound(c, rounds, round, report, stepReport, hooks);
      ghost var rest := RunRounds(kit, ctx, c, c.steps[n + 1..], svc.World());
      assert rounds + ([round] + rest) == rounds + [round] + rest;
      rounds := rounds + [round];
      n := n + 1;
      if stepErr != {} {
        err := stepErr;
        n := |c.steps|;
      }
    }
    assert rounds + [] == rounds;
    ghost var w1 := svc.World();
    var sweepErr := svc.Cleanup();
    KitSweeps(svc.env, w1);
    err := err + sweepErr;
  }

  function NewReport(c: Case): (r: CaseReport)
    ensures r == RunningReport(c, [])
  {
    CaseReport(c.name, Unset, {}, None, 0, 0, |c.steps|, NoStats, [])
  }

  method FinishCaseReport(report: CaseReport, err: Err) returns (final: CaseReport)
    ensures final == FinishCase(report, err)
  {
    var stats := StepStats(report.steps);
    if report.hooks.Some? {
      var before := StepStats(report.hooks.value.before);
      stats := stats.Add(before);
      var after := StepStats(report.hooks.value.after);
      stats := stats.Add(after);
    }
    final := report.(stats := stats);
    if err != {} {
      return final.(state := Failed, reason := err);
    }
    if final.state.Unset? {
      final := final.(state := Passed);
    }
  }
}
