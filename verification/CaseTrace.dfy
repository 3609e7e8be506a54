/** The trace of one test case: which steps run, in which order, and what the case
reports. It is driven by an arbitrary way of performing actions and of sweeping,
so its results hold under every outcome of every action. */
module CaseTrace {

  import opened Errors
  import opened Objects
  import opened Lifecycle
  import opened Reports
  import LogPolicies

  // ---- the case file ----

  /** A templated object by name, or a kind and label selector. */
  datatype TargetRef = TargetRef(objectName: string, kind: string, labelSelector: string)

  datatype EnsureSpec = EnsureSpec(objectName: string, values: Values, attempts: Option<int>, delay: int)
  datatype PatchSpec = PatchSpec(target: TargetRef, patches: seq<string>, attempts: Option<int>, delay: int)
  datatype WaitSpec = WaitSpec(target: TargetRef, conditions: seq<string>, delay: int)
  datatype AssertSpec = AssertSpec(target: TargetRef, conditions: seq<string>, attempts: Option<int>, delay: int)
  datatype LogsSpec = LogsSpec(target: TargetRef, contains: string, policy: LogPolicies.Policy, delay: int)
  datatype ExecSpec = ExecSpec(target: TargetRef, attempts: Option<int>, delay: int)
  datatype DeleteSpec = DeleteSpec(target: TargetRef, wait: bool, attempts: Option<int>, delay: int)

  datatype Action =
    | DoEnsure(ensure: EnsureSpec) | DoPatch(patch: PatchSpec) | DoWait(waiting: WaitSpec) | DoAssert(check: AssertSpec)
    | DoLogs(logs: LogsSpec) | DoExec(exec: ExecSpec) | DoDelete(delete: DeleteSpec)

  datatype Step = Step(
    name: string, optional: bool,
    ensure: Option<EnsureSpec>, patch: Option<PatchSpec>, waiting: Option<WaitSpec>, check: Option<AssertSpec>,
    logs: Option<LogsSpec>, exec: Option<ExecSpec>, delete: Option<DeleteSpec>)

  /** A null entry in a YAML list of steps is None. */
  type MaybeStep = Option<Step>

  datatype Case = Case(
    name: string, tags: seq<string>, objects: map<string, string>,
    beforeEach: seq<MaybeStep>, afterEach: seq<MaybeStep>, steps: seq<MaybeStep>)

  /** What an action sees of its surroundings. */
  datatype Context = Context(objects: map<string, string>, annotations: map<string, string>)

  /** How actions are carried out and how the cache is swept. */
  datatype Kit = Kit(
    perform: (Context, Action, World) -> (World, Err),
    sweep: World -> (World, Err))

  // ---- one step ----

  function One<A>(o: Option<A>): seq<A> {
    if o.None? then [] else [o.value]
  }

  /** The configured actions in the fixed order ensure, patch, wait, assert, logs,
      exec, delete. */
  function Configured(st: Step): seq<Action> {
    (if st.ensure.Some? then [DoEnsure(st.ensure.value)] else [])
    + (if st.patch.Some? then [DoPatch(st.patch.value)] else [])
    + (if st.waiting.Some? then [DoWait(st.waiting.value)] else [])
    + (if st.check.Some? then [DoAssert(st.check.value)] else [])
    + (if st.logs.Some? then [DoLogs(st.logs.value)] else [])
    + (if st.exec.Some? then [DoExec(st.exec.value)] else [])
    + (if st.delete.Some? then [DoDelete(st.delete.value)] else [])
  }

  function NameOf(a: Action): Name {
    match a
    case DoEnsure(_) => EnsureName
    case DoPatch(_) => PatchName
    case DoWait(_) => WaitName
    case DoAssert(_) => AssertName
    case DoLogs(_) => LogsName
    case DoExec(_) => ExecName
    case DoDelete(_) => DeleteName
  }

  function TargetOf(a: Action): string {
    match a
    case DoEnsure(s) => s.objectName
    case DoPatch(s) => s.target.objectName
    case DoWait(s) => s.target.objectName
    case DoAssert(s) => s.target.objectName
    case DoLogs(s) => s.target.objectName
    case DoExec(s) => s.target.objectName
    case DoDelete(s) => s.target.objectName
  }

  function Finished(a: Action, e: Err): ActionReport {
    ActionReport(NameOf(a), TargetOf(a), if e == {} then Passed else Failed, e)
  }

  datatype Batch = Batch(world: World, reports: seq<ActionReport>, err: Err)

  /** Run actions in order up to and including the first failure. */
  function RunActions(kit: Kit, ctx: Context, acts: seq<Action>, w: World): (b: Batch)
    ensures |b.reports| <= |acts|
    ensures b.err == {} ==> |b.reports| == |acts|
    ensures forall i :: 0 <= i < |b.reports| ==>
      b.reports[i].state == (if i == |b.reports| - 1 && b.err != {} then Failed else Passed)
    ensures b.err != {} ==> b.reports != []
  {
    if acts == [] then Batch(w, [], {})
    else
      var (w1, e) := kit.perform(ctx, acts[0], w);
      var head := [Finished(acts[0], e)];
      if e != {} then Batch(w1, head, e)
      else
        var rest := RunActions(kit, ctx, acts[1..], w1);
        Batch(rest.world, head + rest.reports, rest.err)
  }

  /** Running one more action after a batch. */
  lemma {:induction false} RunOneMore(kit: Kit, ctx: Context, acts: seq<Action>, a: Action, w: World)
    ensures var b := RunActions(kit, ctx, acts, w);
            RunActions(kit, ctx, acts + [a], w) ==
              if b.err != {} then b
              else var (w', e) := kit.perform(ctx, a, b.world); Batch(w', b.reports + [Finished(a, e)], e)
  {
    hide Finished;
    if acts == [] {
      assert acts + [a] == [a];
    } else {
      assert (acts + [a])[1..] == acts[1..] + [a];
      RunOneMore(kit, ctx, acts[1..], a, kit.perform(ctx, acts[0], w).0);
    }
  }

  /** One executed step: where it started, where it ended, what it reported. */
  datatype Span = Span(step: MaybeStep, pre: World, post: World, report: StepReport, err: Err)

  const StepAnnotation := "testing.kube2e.io/step"

  function StepContext(ctx: Context, st: Step): Context {
    ctx.(annotations := ctx.annotations[StepAnnotation := st.name])
  }

  /** The report and error of a step whose actions have run: an optional step
      swallows its error and is reported as skipped. */
  function FinishStep(st: Step, b: Batch): (StepReport, Err) {
    var states := ActionStates(b.reports);
    var report := StepReport(st.name, st.optional,
      if b.err == {} then Passed else if st.optional then Skipped else Failed, b.err,
      Count(states, {Passed}), Count(states, {Failed}), |Configured(st)|, Tally(b.reports), b.reports);
    (report, if st.optional then {} else b.err)
  }

  const NilStepReport := StepReport("", false, Failed, {NilStep}, 0, 0, 0, NoStats, [])

  function RunStep(kit: Kit, ctx: Context, st: MaybeStep, w: World): Span {
    match st
    case None => Span(st, w, w, NilStepReport, {NilStep})
    case Some(s) =>
      var b := RunActions(kit, StepContext(ctx, s), Configured(s), w);
      var (report, err) := FinishStep(s, b);
      Span(st, w, b.world, report, err)
  }

  // ---- hooks and rounds ----

  /** Steps in order up to and including the first failure. */
  function RunSteps(kit: Kit, ctx: Context, steps: seq<MaybeStep>, w: World): (spans: seq<Span>)
    ensures |spans| <= |steps|
  {
    if steps == [] then []
    else
      var s := RunStep(kit, ctx, steps[0], w);
      if s.err != {} then [s] else [s] + RunSteps(kit, ctx, steps[1..], s.post)
  }

  function EndOf(w: World, spans: seq<Span>): World {
    if spans == [] then w else spans[|spans| - 1].post
  }

  function ErrOf(spans: seq<Span>): Err {
    if spans == [] then {} else spans[|spans| - 1].err
  }

  function ReportsOf(spans: seq<Span>): seq<StepReport> {
    seq(|spans|, i requires 0 <= i < |spans| => spans[i].report)
  }

  /** A main step with the hooks around it. */
  datatype Round = Round(step: MaybeStep, pre: World, before: seq<Span>, main: Option<Span>, after: seq<Span>)

  function RoundErr(r: Round): Err {
    ErrOf(r.before) + ErrOf(One(r.main)) + ErrOf(r.after)
  }

  function RoundEnd(r: Round): World {
    EndOf(EndOf(EndOf(r.pre, r.before), One(r.main)), r.after)
  }

  function RunRound(kit: Kit, ctx: Context, c: Case, st: MaybeStep, w: World): Round {
    var before := RunSteps(kit, ctx, c.beforeEach, w);
    var w1 := EndOf(w, before);
    var main := if ErrOf(before) != {} then None else Some(RunStep(kit, ctx, st, w1));
    Round(st, w, before, main, RunSteps(kit, ctx, c.afterEach, EndOf(w1, One(main))))
  }

  function RunRounds(kit: Kit, ctx: Context, c: Case, steps: seq<MaybeStep>, w: World): (rounds: seq<Round>)
    ensures |rounds| <= |steps|
    ensures steps != [] ==> rounds != []
  {
    if steps == [] then []
    else
      var r := RunRound(kit, ctx, c, steps[0], w);
      if RoundErr(r) != {} then [r] else [r] + RunRounds(kit, ctx, c, steps[1..], RoundEnd(r))
  }

  function RoundsEnd(w: World, rounds: seq<Round>): World {
    if rounds == [] then w else RoundEnd(rounds[|rounds| - 1])
  }

  function RoundsErr(rounds: seq<Round>): Err {
    if rounds == [] then {} else RoundErr(rounds[|rounds| - 1])
  }

  // ---- reports ----

  /** The report of a main step whose before-hooks failed. */
  function SkippedReport(st: MaybeStep, reason: Err): StepReport {
    match st
    case None => StepReport("", false, Skipped, reason, 0, 0, 0, NoStats, [])
    case Some(s) => StepReport(s.name, s.optional, Skipped, reason, 0, 0, |Configured(s)|, NoStats, [])
  }

  function MainReport(r: Round): StepReport {
    if r.main.Some? then r.main.value.report else SkippedReport(r.step, ErrOf(r.before))
  }

  function MainReports(rounds: seq<Round>): seq<StepReport> {
    seq(|rounds|, i requires 0 <= i < |rounds| => MainReport(rounds[i]))
  }

  function BeforeReports(rounds: seq<Round>): seq<StepReport> {
    if rounds == [] then []
    else BeforeReports(rounds[..|rounds| - 1]) + ReportsOf(rounds[|rounds| - 1].before)
  }

  function AfterReports(rounds: seq<Round>): seq<StepReport> {
    if rounds == [] then []
    else AfterReports(rounds[..|rounds| - 1]) + ReportsOf(rounds[|rounds| - 1].after)
  }

  function HooksOf(before: seq<StepReport>, after: seq<StepReport>): Option<HooksReport> {
    if before == [] && after == [] then None else Some(HooksReport(before, after))
  }

  /** The case report while the case is running. */
  function RunningReport(c: Case, rounds: seq<Round>): CaseReport {
    var mains := MainReports(rounds);
    CaseReport(c.name, Unset, {}, HooksOf(BeforeReports(rounds), AfterReports(rounds)),
      Count(StepStates(mains), {Passed, Skipped}), Count(StepStates(mains), {Failed}),
      |c.steps|, NoStats, mains)
  }

  /** Everything a case execution did, from its steps to the deferred cleanup. */
  datatype CaseRun = CaseRun(rounds: seq<Round>, end: World, report: CaseReport, err: Err)

  function RunCase(kit: Kit, ctx: Context, c: Case, w: World): CaseRun {
    if c.steps == [] then CaseRun([], w, RunningReport(c, []), {})
    else
      var rounds := RunRounds(kit, ctx, c, c.steps, w);
      var (w', sweepErr) := kit.sweep(RoundsEnd(w, rounds));
      CaseRun(rounds, w', RunningReport(c, rounds), RoundsErr(rounds) + sweepErr)
  }

  /** finishReport of a case. */
  function FinishCase(r: CaseReport, e: Err): CaseReport {
    var summed := r.(stats := CaseStats(r));
    if e != {} then summed.(state := Failed, reason := e)
    else if r.state.Unset? then summed.(state := Passed) else summed
  }
}
