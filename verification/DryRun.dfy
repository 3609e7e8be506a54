/** Dry run: it never touches the cluster, it fails exactly on flaws visible in
the case files, and such a flaw makes every real run fail. */
module DryRun {

  import opened Errors
  import opened Lifecycle
  import opened Reports
  import opened CaseTrace
  import opened TraceLaws
  import opened TracePreservation
  import opened Actions
  import opened SuiteRun
  import opened SuiteLaws

  // ---- flaws ----

  /** The object is not declared or its template does not render. */
  predicate Unrenderable(env: Env, ctx: Context, name: string, values: Values) {
    name !in ctx.objects || env.render(ctx.objects[name], name, values).None?
  }

  /** A target for logs or exec that names no usable object and no kind with a selector. */
  predicate Aimless(env: Env, ctx: Context, t: TargetRef) {
    if t.objectName == "" then t.kind == "" || t.labelSelector == ""
    else Unrenderable(env, ctx, t.objectName, map[])
  }

  /** An action that cannot work whatever the cluster does. */
  predicate FlawedAction(env: Env, ctx: Context, act: Action) {
    match act
    case DoEnsure(s) => Unrenderable(env, ctx, s.objectName, s.values)
    case DoPatch(s) => Unrenderable(env, ctx, s.target.objectName, map[])
    case DoWait(s) => Unrenderable(env, ctx, s.target.objectName, map[])
    case DoAssert(s) => Unrenderable(env, ctx, s.target.objectName, map[])
    case DoLogs(s) => Aimless(env, ctx, s.target)
    case DoExec(s) => Aimless(env, ctx, s.target)
    case DoDelete(s) => Unrenderable(env, ctx, s.target.objectName, map[])
  }

  lemma FlawedActionIs(env: Env, ctx: Context, act: Action)
    ensures FlawedAction(env, ctx, act) <==> Prepare(env, ctx, act).Unrendered? || Unusable(act)
  {
  }

  predicate FlawedStep(env: Env, ctx: Context, st: MaybeStep) {
    match st
    case None => true
    case Some(s) => !s.optional && exists act :: act in Configured(s) && FlawedAction(env, ctx, act)
  }

  predicate FlawedSteps(env: Env, ctx: Context, steps: seq<MaybeStep>) {
    exists i :: 0 <= i < |steps| && FlawedStep(env, ctx, steps[i])
  }

  predicate FlawedCase(env: Env, ctx: Context, c: Case) {
    && c.steps != []
    && (FlawedSteps(env, ctx, c.beforeEach) || FlawedSteps(env, ctx, c.steps) || FlawedSteps(env, ctx, c.afterEach))
  }

  predicate FlawedFile(env: Env, conf: Conf, file: CaseFile) {
    file.parsed.None? || (Selected(conf, file.parsed.value)
      && FlawedCase(env, CaseContext(conf, file.parsed.value), file.parsed.value))
  }

  predicate FlawedSuite(env: Env, conf: Conf, dir: SuiteDir) {
    || !Loaded(dir)
    || (dir.cases.Listing?
        && exists i ::
             0 <= i < |CaseFiles(dir.cases.entries)| && FlawedFile(env, conf, CaseFiles(dir.cases.entries)[i]))
  }

  // ---- what a kit does with flawed actions ----

  /** Flawed actions fail. */
  ghost predicate Rejects(kit: Kit, env: Env) {
    forall ctx, act, w :: FlawedAction(env, ctx, act) ==> kit.perform(ctx, act, w).1 != {}
  }

  /** Only flawed actions fail, and sweeping never does. */
  ghost predicate Lenient(kit: Kit, env: Env) {
    && (forall ctx, act, w :: kit.perform(ctx, act, w).1 != {} ==> FlawedAction(env, ctx, act))
    && (forall w :: kit.sweep(w).1 == {})
  }

  /** Flaws do not depend on annotations. */
  lemma FlawsIgnoreAnnotations(env: Env, ctx: Context, st: Step, act: Action)
    ensures FlawedAction(env, StepContext(ctx, st), act) == FlawedAction(env, ctx, act)
  {
  }

  lemma {:induction false} ActionsReject(kit: Kit, env: Env, ctx: Context, acts: seq<Action>, w: World, i: nat)
    requires Rejects(kit, env) && i < |acts| && FlawedAction(env, ctx, acts[i])
    ensures RunActions(kit, ctx, acts, w).err != {}
    decreases |acts|
  {
    hide FlawedAction;
    hide Finished;
    var (w1, e) := kit.perform(ctx, acts[0], w);
    if e == {} {
      ActionsReject(kit, env, ctx, acts[1..], w1, i - 1);
    }
  }

  lemma {:induction false} ActionsLenient(kit: Kit, env: Env, ctx: Context, acts: seq<Action>, w: World)
    requires Lenient(kit, env) && RunActions(kit, ctx, acts, w).err != {}
    ensures exists act :: act in acts && FlawedAction(env, ctx, act)
    decreases |acts|
  {
    hide FlawedAction;
    hide Finished;
    if acts != [] {
      var (w1, e) := kit.perform(ctx, acts[0], w);
      if e == {} {
        ActionsLenient(kit, env, ctx, acts[1..], w1);
        var act :| act in acts[1..] && FlawedAction(env, ctx, act);
        assert act in acts;
      } else {
        assert acts[0] in acts && FlawedAction(env, ctx, acts[0]);
      }
    }
  }

  lemma StepRejects(kit: Kit, env: Env, ctx: Context, st: MaybeStep, w: World)
    requires Rejects(kit, env) && FlawedStep(env, ctx, st)
    ensures RunStep(kit, ctx, st, w).err != {}
  {
    hide FlawedAction;
    hide RunActions;
    hide Configured;
    hide Rejects;
    hide Tally;
    if st.Some? {
      var s := st.value;
      var act :| act in Configured(s) && FlawedAction(env, ctx, act);
      var i :| 0 <= i < |Configured(s)| && Configured(s)[i] == act;
      FlawsIgnoreAnnotations(env, ctx, s, act);
      ActionsReject(kit, env, StepContext(ctx, s), Configured(s), w, i);
    }
  }

  lemma StepLenient(kit: Kit, env: Env, ctx: Context, st: MaybeStep, w: World)
    requires Lenient(kit, env) && RunStep(kit, ctx, st, w).err != {}
    ensures FlawedStep(env, ctx, st)
  {
    hide FlawedAction;
    hide RunActions;
    hide Configured;
    hide Lenient;
    hide Tally;
    if st.Some? {
      var s := st.value;
      ActionsLenient(kit, env, StepContext(ctx, s), Configured(s), w);
      var act :| act in Configured(s) && FlawedAction(env, StepContext(ctx, s), act);
      FlawsIgnoreAnnotations(env, ctx, s, act);
    }
  }

  /** A prefix without an error contains no flawed step; a lenient prefix with one does. */
  lemma PrefixFlaws(kit: Kit, env: Env, ctx: Context, steps: seq<MaybeStep>, w: World, spans: seq<Span>)
    requires Prefix(kit, ctx, steps, w, spans)
    ensures Rejects(kit, env) && FlawedSteps(env, ctx, steps) ==> ErrOf(spans) != {}
    ensures Lenient(kit, env) && ErrOf(spans) != {} ==> FlawedSteps(env, ctx, steps)
  {
    hide RunStep;
    hide FlawedStep;
    hide Rejects;
    hide Lenient;
    if Rejects(kit, env) && FlawedSteps(env, ctx, steps) && ErrOf(spans) == {} {
      var i :| 0 <= i < |steps| && FlawedStep(env, ctx, steps[i]);
      assert RanAt(kit, ctx, steps, w, spans, i);
      StepRejects(kit, env, ctx, steps[i], StartOf(w, spans, i));
      assert false;
    }
    if Lenient(kit, env) && ErrOf(spans) != {} {
      var i := |spans| - 1;
      assert RanAt(kit, ctx, steps, w, spans, i);
      StepLenient(kit, env, ctx, steps[i], StartOf(w, spans, i));
    }
  }

  predicate FlawedRound(env: Env, ctx: Context, c: Case, st: MaybeStep) {
    FlawedSteps(env, ctx, c.beforeEach) || FlawedStep(env, ctx, st) || FlawedSteps(env, ctx, c.afterEach)
  }

  lemma RoundFlaws(kit: Kit, env: Env, ctx: Context, c: Case, r: Round)
    requires Lawful(kit, ctx, c, r)
    ensures Rejects(kit, env) && FlawedRound(env, ctx, c, r.step) ==> RoundErr(r) != {}
    ensures Lenient(kit, env) && RoundErr(r) != {} ==> FlawedRound(env, ctx, c, r.step)
  {
    hide RunStep;
    hide FlawedStep;
    hide FlawedSteps;
    hide Rejects;
    hide Lenient;
    hide Prefix;
    PrefixFlaws(kit, env, ctx, c.beforeEach, r.pre, r.before);
    PrefixFlaws(kit, env, ctx, c.afterEach, EndOf(EndOf(r.pre, r.before), One(r.main)), r.after);
    if r.main.Some? {
      if Rejects(kit, env) && FlawedStep(env, ctx, r.step) {
        StepRejects(kit, env, ctx, r.step, EndOf(r.pre, r.before));
      }
      if Lenient(kit, env) && r.main.value.err != {} {
        StepLenient(kit, env, ctx, r.step, EndOf(r.pre, r.before));
      }
    } else {
      PrefixStops(kit, ctx, c.beforeEach, r.pre, r.before);
    }
  }

  lemma RoundsFlaws(kit: Kit, env: Env, ctx: Context, c: Case, w: World, rounds: seq<Round>)
    requires Chained(kit, ctx, c, c.steps, w, rounds)
    ensures Rejects(kit, env) && FlawedCase(env, ctx, c) ==> RoundsErr(rounds) != {}
    ensures Lenient(kit, env) && RoundsErr(rounds) != {} ==> FlawedCase(env, ctx, c)
  {
    hide Lawful;
    hide RoundErr;
    hide RoundEnd;
    hide FlawedStep;
    hide Rejects;
    hide Lenient;
    if Rejects(kit, env) && FlawedCase(env, ctx, c) && RoundsErr(rounds) == {} {
      var i: nat :| i < |c.steps| && FlawedRound(env, ctx, c, c.steps[i]);
      assert RoundAt(kit, ctx, c, c.steps, w, rounds, i);
      RoundFlaws(kit, env, ctx, c, rounds[i]);
      assert false;
    }
    if Lenient(kit, env) && RoundsErr(rounds) != {} {
      var i := |rounds| - 1;
      assert RoundAt(kit, ctx, c, c.steps, w, rounds, i);
      RoundFlaws(kit, env, ctx, c, rounds[i]);
    }
  }

  lemma CaseFlaws(kit: Kit, env: Env, ctx: Context, c: Case, w: World)
    ensures Rejects(kit, env) && FlawedCase(env, ctx, c) ==> RunCase(kit, ctx, c, w).err != {}
    ensures Lenient(kit, env) && RunCase(kit, ctx, c, w).err != {} ==> FlawedCase(env, ctx, c)
  {
    hide RunRounds;
    hide Chained;
    hide RunningReport;
    hide Rejects;
    hide FlawedSteps;
    hide RoundsErr;
    if c.steps != [] {
      RoundsChain(kit, ctx, c, c.steps, w);
      RoundsFlaws(kit, env, ctx, c, w, RunRounds(kit, ctx, c, c.steps, w));
    }
  }

  // ---- real and dry kits ----

  lemma RealKitRejects(env: Env)
    ensures Rejects(KitOf(env), env)
  {
    forall ctx, act, w | FlawedAction(env, ctx, act) ensures KitOf(env).perform(ctx, act, w).1 != {} {
      FlawedActionIs(env, ctx, act);
      hide FlawedAction;
      hide Execute;
      KitUnfolds(env, ctx, act, w);
    }
  }

  ghost predicate LiveContext(env: Env) {
    forall t :: env.context(t) == {}
  }

  /** A dry action fails only on a flaw and only ticks the clock. */
  lemma DryPerform(env: Env, ctx: Context, act: Action, w: World)
    requires env.dryRun
    ensures var (w', e) := Perform(env, ctx, act, w);
            && w'.api.objects == w.api.objects && w'.api.audit == w.api.audit && w'.applied == w.applied
            && (LiveContext(env) && e != {} ==> FlawedAction(env, ctx, act))
  {
    FlawedActionIs(env, ctx, act);
    hide FlawedAction;
    hide Prepare;
    hide Unusable;
  }

  lemma DryKitLenient(env: Env)
    requires env.dryRun && LiveContext(env)
    ensures Lenient(KitOf(env), env)
  {
    hide Perform;
    hide FlawedAction;
    forall ctx, act, w | KitOf(env).perform(ctx, act, w).1 != {} ensures FlawedAction(env, ctx, act) {
      KitUnfolds(env, ctx, act, w);
      DryPerform(env, ctx, act, w);
    }
  }

  // ---- files and suites ----

  /** A flawed file fails in every run. */
  lemma FlawedFileFails(env: Env, conf: Conf, file: CaseFile, a: Api)
    requires FlawedFile(env, conf, file)
    ensures RunFile(env, conf, file, a).err != {}
  {
    hide Prelude;
    hide RunCase;
    hide KitOf;
    hide FinishCase;
    hide FlawedCase;
    hide Rejects;
    hide Lenient;
    if file.parsed.Some? {
      var c := file.parsed.value;
      RealKitRejects(env);
      CaseFlaws(KitOf(env), env, CaseContext(conf, c), c, Prelude(env, conf, a).0);
    }
  }

  /** A dry run of a file fails only if the file is flawed. */
  lemma DryFileFailsOnFlaw(env: Env, conf: Conf, file: CaseFile, a: Api)
    requires env.dryRun && LiveContext(env) && RunFile(env, conf, file, a).err != {}
    ensures FlawedFile(env, conf, file)
  {
    hide RunCase;
    hide KitOf;
    hide FinishCase;
    hide FlawedCase;
    hide Rejects;
    hide Lenient;
    if file.parsed.Some? {
      var c := file.parsed.value;
      DryKitLenient(env);
      CaseFlaws(KitOf(env), env, CaseContext(conf, c), c, Prelude(env, conf, a).0);
    }
  }

  lemma FlawedFilesFail(env: Env, conf: Conf, files: seq<CaseFile>, a: Api, i: nat)
    requires i < |files| && FlawedFile(env, conf, files[i])
    ensures SuiteErr(RunFiles(env, conf, files, a)) != {}
  {
    hide RunFile;
    hide FlawedFile;
    hide RunFiles;
    FilesRunAsPrefix(env, conf, files, a);
    var runs := RunFiles(env, conf, files, a);
    if i < |runs| {
      assert FileAt(env, conf, files, a, runs, i);
      FlawedFileFails(env, conf, files[i], FileStart(a, runs, i));
      assert FileErrs(runs)[i] != {};
    }
  }

  /** A flawed suite fails in every run, under every outcome of every call. */
  lemma FlawedSuiteFails(env: Env, conf: Conf, dir: SuiteDir, a: Api)
    requires FlawedSuite(env, conf, dir)
    ensures RunSuite(env, conf, dir, a).err != {}
  {
    hide RunFiles;
    hide FlawedFile;
    hide CaseFiles;
    hide SuiteErr;
    hide FinishSuite;
    if Loaded(dir) {
      var files := CaseFiles(dir.cases.entries);
      var i: nat :| i < |files| && FlawedFile(env, conf, files[i]);
      FlawedFilesFail(env, conf, files, a, i);
    }
  }

  lemma DryFilesFailOnFlaw(env: Env, conf: Conf, files: seq<CaseFile>, a: Api)
    requires env.dryRun && LiveContext(env) && SuiteErr(RunFiles(env, conf, files, a)) != {}
    ensures exists i :: 0 <= i < |files| && FlawedFile(env, conf, files[i])
  {
    hide RunFile;
    hide FlawedFile;
    hide RunFiles;
    FilesRunAsPrefix(env, conf, files, a);
    var runs := RunFiles(env, conf, files, a);
    assert exists i :: 0 <= i < |runs| && runs[i].err != {} by {
      if !Interrupts(runs[|runs| - 1].err) {
        var i :| 0 <= i < |FileErrs(runs)| && FileErrs(runs)[i] != {};
        assert runs[i].err != {};
      } else {
        assert runs[|runs| - 1].err != {};
      }
    }
    var i: nat :| i < |runs| && runs[i].err != {};
    assert FileAt(env, conf, files, a, runs, i);
    DryFileFailsOnFlaw(env, conf, files[i], FileStart(a, runs, i));
  }

  /** A dry run fails exactly on a flawed suite. */
  lemma DryRunFailsIffFlawed(env: Env, conf: Conf, dir: SuiteDir, a: Api)
    requires env.dryRun && LiveContext(env)
    ensures RunSuite(env, conf, dir, a).err != {} <==> FlawedSuite(env, conf, dir)
  {
    hide RunFiles;
    hide FlawedFile;
    hide CaseFiles;
    hide SuiteErr;
    hide FinishSuite;
    if FlawedSuite(env, conf, dir) {
      FlawedSuiteFails(env, conf, dir, a);
    } else if dir.cases.Listing? && RunSuite(env, conf, dir, a).err != {} {
      DryFilesFailOnFlaw(env, conf, CaseFiles(dir.cases.entries), a);
      assert false;
    }
  }

  /** The inputs a dry run and a real run share; everything the cluster, the
      context and chance contribute may differ. */
  ghost predicate SameInputs(dry: Env, live: Env) {
    dry.dryRun && !live.dryRun && dry.render == live.render
  }

  /** If the dry run fails, the real run fails whatever the cluster does. */
  lemma DryFailureIsReal(dry: Env, live: Env, conf: Conf, dir: SuiteDir, a: Api, b: Api)
    requires SameInputs(dry, live) && LiveContext(dry) && RunSuite(dry, conf, dir, a).err != {}
    ensures RunSuite(live, conf, dir, b).err != {}
  {
    hide RunSuite;
    hide CaseFiles;
    hide Configured;
    DryRunFailsIffFlawed(dry, conf, dir, a);
    assert FlawedSuite(dry, conf, dir) ==> FlawedSuite(live, conf, dir) by {
      forall file ensures FlawedFile(dry, conf, file) == FlawedFile(live, conf, file) {
        SameFlaws(dry, live, conf, file);
      }
    }
    FlawedSuiteFails(live, conf, dir, b);
  }

  lemma SameFlaws(dry: Env, live: Env, conf: Conf, file: CaseFile)
    requires dry.render == live.render
    ensures FlawedFile(dry, conf, file) == FlawedFile(live, conf, file)
  {
    hide Configured;
    forall ctx, st: MaybeStep ensures FlawedStep(dry, ctx, st) == FlawedStep(live, ctx, st) {
      forall act ensures FlawedAction(dry, ctx, act) == FlawedAction(live, ctx, act) {
      }
    }
  }

  // ---- a dry run changes nothing ----

  ghost function Still(): Relation {
    (w: World, w': World) => w'.api.objects == w.api.objects && w'.api.audit == w.api.audit && w'.applied == w.applied
  }

  lemma DryKitKeepsStill(env: Env)
    requires env.dryRun
    ensures Preserves(KitOf(env), Still(), Anything())
  {
    hide Perform;
    forall ctx, act, w ensures Still()(w, KitOf(env).perform(ctx, act, w).0) {
      KitUnfolds(env, ctx, act, w);
      DryPerform(env, ctx, act, w);
    }
  }

  /** No action of a dry case changes an object, asks anything of the server or caches
      anything, and neither does its cleanup. */
  lemma DryCaseStill(env: Env, ctx: Context, c: Case, w: World)
    requires env.dryRun
    ensures forall w' :: w' in CaseWorlds(KitOf(env), ctx, c, w) ==> Still()(w, w')
    ensures Still()(w, RunCase(KitOf(env), ctx, c, w).end)
  {
    hide RunRounds;
    hide RoundsEnd;
    hide RunningReport;
    hide Preserves;
    hide CaseWorlds;
    hide CaseAdmitted;
    hide Perform;
    DryKitKeepsStill(env);
    AnythingAdmitted(ctx, c);
    CaseKeeps(KitOf(env), Still(), Anything(), ctx, c, w);
  }

  lemma DryFileStill(env: Env, conf: Conf, file: CaseFile, a: Api)
    requires env.dryRun
    ensures var b := RunFile(env, conf, file, a).post; b.objects == a.objects && b.audit == a.audit
  {
    hide FinishCase;
    hide RunCase;
    hide KitOf;
    if file.parsed.Some? {
      var c := file.parsed.value;
      DryCaseStill(env, CaseContext(conf, c), c, World(a, map[]));
    }
  }

  lemma {:induction false} DryFilesStill(env: Env, conf: Conf, files: seq<CaseFile>, a: Api)
    requires env.dryRun
    ensures var b := FilesEnd(a, RunFiles(env, conf, files, a)); b.objects == a.objects && b.audit == a.audit
    decreases |files|
  {
    hide RunFile;
    if files != [] {
      var r := RunFile(env, conf, files[0], a);
      DryFileStill(env, conf, files[0], a);
      if !Interrupts(r.err) {
        DryFilesStill(env, conf, files[1..], r.post);
      }
    }
  }

  /** A dry run asks nothing of the API server and changes no object. */
  lemma DryRunTouchesNothing(env: Env, conf: Conf, dir: SuiteDir, a: Api)
    requires env.dryRun
    ensures var b := RunSuite(env, conf, dir, a).post; b.objects == a.objects && b.audit == a.audit
  {
    hide RunFiles;
    hide CaseFiles;
    hide FinishSuite;
    hide SuiteErr;
    if dir.cases.Listing? {
      DryFilesStill(env, conf, CaseFiles(dir.cases.entries), a);
    }
  }
}
