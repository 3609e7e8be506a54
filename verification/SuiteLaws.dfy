/** What a suite reports and returns, for every outcome of every action. */
module SuiteLaws {

  import opened Errors
  import opened Lifecycle
  import opened Reports
  import opened CaseTrace
  import opened TraceLaws
  import opened CaseRunner
  import opened Actions
  import opened SuiteRun

  // ---- one case file ----

  ghost predicate SoundCase(r: CaseReport) {
    r.state in {Passed, Failed, Skipped} && CaseTallied(r) && r.passed + r.failed == |r.steps| <= r.total
  }

  lemma BareReportSound(r: CaseReport, e: Err)
    requires r.hooks.None? && r.steps == [] && r.passed == 0 && r.failed == 0 && r.stats == NoStats
    requires r.state in {Unset, Skipped}
    ensures SoundCase(FinishCase(r, e)) && (r.state.Skipped? ==> SoundCase(r))
    ensures FinishCase(r, e).state.Failed? <==> e != {}
  {
  }

  lemma CaseRunSound(kit: Kit, ctx: Context, c: Case, w: World)
    ensures var run := RunCase(kit, ctx, c, w);
            && SoundCase(FinishCase(run.report, run.err))
            && (FinishCase(run.report, run.err).state.Failed? <==> run.err != {})
  {
    hide RunCase;
    hide FinishCase;
    hide CaseTallied;
    CaseReportSound(kit, ctx, c, w);
  }

  /** A case file reports failed exactly when running it returns an error. */
  lemma FileReportSound(env: Env, conf: Conf, file: CaseFile, a: Api)
    ensures var r := RunFile(env, conf, file, a);
            SoundCase(r.report) && (r.report.state.Failed? <==> r.err != {})
  {
    hide RunCase;
    hide FinishCase;
    hide SoundCase;
    hide Prelude;
    hide KitOf;
    match file.parsed
    case None => BareReportSound(BlankCase, {NotParsed});
    case Some(c) =>
      BareReportSound(NewReport(c), Prelude(env, conf, a).1);
      BareReportSound(NewReport(c).(state := Skipped), {});
      CaseRunSound(KitOf(env), CaseContext(conf, c), c, Prelude(env, conf, a).0);
  }

  // ---- the files that run ----

  function FileStart(a: Api, runs: seq<FileRun>, i: nat): Api
    requires i <= |runs|
  {
    if i == 0 then a else runs[i - 1].post
  }

  ghost predicate FileAt(env: Env, conf: Conf, files: seq<CaseFile>, a: Api, runs: seq<FileRun>, i: nat)
    requires i < |runs| <= |files|
  {
    runs[i] == RunFile(env, conf, files[i], FileStart(a, runs, i))
  }

  /** The error chain holds a cancellation or a deadline. */
  predicate CutsShort(e: Err) {
    Canceled in e || DeadlineExceeded in e
  }

  /** A prefix of the files, each run where the last one left the cluster, cut short
      only after a case whose error chain holds a cancellation or deadline. */
  ghost predicate FilePrefix(env: Env, conf: Conf, files: seq<CaseFile>, a: Api, runs: seq<FileRun>) {
    && |runs| <= |files|
    && (forall i: nat :: i < |runs| ==> FileAt(env, conf, files, a, runs, i))
    && (forall i :: 0 <= i < |runs| - 1 ==> !CutsShort(runs[i].err))
    && (|runs| < |files| ==> runs != [] && CutsShort(runs[|runs| - 1].err))
  }

  lemma {:induction false} FilesRunAsPrefix(env: Env, conf: Conf, files: seq<CaseFile>, a: Api)
    ensures FilePrefix(env, conf, files, a, RunFiles(env, conf, files, a))
  {
    hide RunFile;
    if files != [] {
      var r := RunFile(env, conf, files[0], a);
      if !Interrupts(r.err) {
        FilesRunAsPrefix(env, conf, files[1..], r.post);
        var rest := RunFiles(env, conf, files[1..], r.post);
        var all := [r] + rest;
        forall i: nat | i < |all| ensures FileAt(env, conf, files, a, all, i) {
          if i > 0 { assert FileAt(env, conf, files[1..], r.post, rest, i - 1); }
        }
      }
    }
  }

  // ---- the suite ----

  ghost predicate SoundRuns(runs: seq<FileRun>) {
    forall i :: 0 <= i < |runs| ==> SoundCase(runs[i].report) && (runs[i].report.state.Failed? <==> runs[i].err != {})
  }

  lemma FilesSound(env: Env, conf: Conf, files: seq<CaseFile>, a: Api)
    ensures SoundRuns(RunFiles(env, conf, files, a))
  {
    hide RunFile;
    hide SoundCase;
    hide RunFiles;
    FilesRunAsPrefix(env, conf, files, a);
    var runs := RunFiles(env, conf, files, a);
    forall i: nat | i < |runs|
      ensures SoundCase(runs[i].report) && (runs[i].report.state.Failed? <==> runs[i].err != {})
    {
      assert FileAt(env, conf, files, a, runs, i);
      FileReportSound(env, conf, files[i], FileStart(a, runs, i));
    }
  }

  /** The returned error is nil exactly when no case is reported failed. */
  lemma SuiteErrSound(runs: seq<FileRun>)
    requires SoundRuns(runs)
    ensures SuiteErr(runs) == {} <==> forall i :: 0 <= i < |runs| ==> !FileReports(runs)[i].state.Failed?
  {
    hide SoundCase;
    var errs, reports := FileErrs(runs), FileReports(runs);
    assert forall i :: 0 <= i < |runs| ==> (reports[i].state.Failed? <==> errs[i] != {}) by {
      forall i | 0 <= i < |runs| ensures reports[i].state.Failed? <==> errs[i] != {} {
        assert reports[i] == runs[i].report && errs[i] == runs[i].err;
      }
    }
    if runs != [] && Interrupts(runs[|runs| - 1].err) {
      assert errs[|runs| - 1] != {};
    }
  }

  lemma SuiteReportsSound(runs: seq<FileRun>)
    requires SoundRuns(runs)
    ensures AllTallied(FileReports(runs))
    ensures Count(CaseStates(FileReports(runs)), {Passed, Skipped})
        + Count(CaseStates(FileReports(runs)), {Failed}) == |runs|
  {
    hide CaseTallied;
    var cases := FileReports(runs);
    assert forall i :: 0 <= i < |runs| ==> cases[i] == runs[i].report && SoundCase(runs[i].report);
    CountsAddUp(CaseStates(cases), {Passed, Skipped}, {Failed});
  }

  predicate Loaded(dir: SuiteDir) {
    dir.templatesLoad && !dir.cases.Unreadable?
  }

  /** A suite is failed exactly when it returns an error, that is when a case in it
      is failed or it could not be loaded; passed plus failed is the number of its
      case reports; its stats are the passed actions of the whole flattened tree. */
  lemma SuiteReportSound(env: Env, conf: Conf, dir: SuiteDir, a: Api)
    ensures var out := RunSuite(env, conf, dir, a);
            && out.report.passed + out.report.failed == out.report.total == |out.report.cases|
            && (out.report.state.Failed? <==> out.err != {}) && out.report.state in {Passed, Failed}
            && (out.err == {} <==>
                  && Loaded(dir)
                  && forall i :: 0 <= i < |out.report.cases| ==> !out.report.cases[i].state.Failed?)
            && out.report.stats == Tally(SuiteActions(out.report.cases))
  {
    hide RunFiles;
    hide SuiteErr;
    hide LastFailure;
    hide SumCases;
    hide Tally;
    hide SuiteActions;
    hide SoundRuns;
    hide AllTallied;
    hide CaseFiles;
    var runs := if Loaded(dir) && dir.cases.Listing? then RunFiles(env, conf, CaseFiles(dir.cases.entries), a)
      else [];
    if Loaded(dir) && dir.cases.Listing? {
      FilesSound(env, conf, CaseFiles(dir.cases.entries), a);
      SuiteErrSound(runs);
    } else {
      NoRunsSound();
    }
    SuiteReportsSound(runs);
    SuiteConservesStats(FileReports(runs));
    assert RunSuite(env, conf, dir, a).report.cases == FileReports(runs);
  }

  lemma NoRunsSound()
    ensures SoundRuns([])
  {
  }

  // ---- interruption ----

  /** The spans of a round: before-hooks, main step, after-hooks. */
  function RoundSpans(r: Round): seq<Span> {
    r.before + One(r.main) + r.after
  }

  lemma PrefixErr(kit: Kit, ctx: Context, steps: seq<MaybeStep>, w: World, spans: seq<Span>, s: Span)
    requires Prefix(kit, ctx, steps, w, spans) && s in spans
    ensures s.err <= ErrOf(spans)
  {
    hide RanAt;
    var i :| 0 <= i < |spans| && spans[i] == s;
  }

  lemma SpanErrReachesRound(kit: Kit, ctx: Context, c: Case, r: Round, s: Span)
    requires Lawful(kit, ctx, c, r) && s in RoundSpans(r)
    ensures s.err <= RoundErr(r)
  {
    hide Prefix;
    hide RunStep;
    if s in r.before {
      PrefixErr(kit, ctx, c.beforeEach, r.pre, r.before, s);
    } else if s in r.after {
      PrefixErr(kit, ctx, c.afterEach, EndOf(EndOf(r.pre, r.before), One(r.main)), r.after, s);
    }
  }

  /** The error of a round is what its hooks and its main step ended with. */
  lemma RoundErrIs(kit: Kit, ctx: Context, c: Case, r: Round, k: Kind)
    requires Lawful(kit, ctx, c, r)
    ensures k in RoundErr(r) <==> exists s :: s in RoundSpans(r) && k in s.err
  {
    hide Prefix;
    hide RunStep;
    if k in ErrOf(r.before) {
      assert r.before[|r.before| - 1] in RoundSpans(r);
    } else if k in ErrOf(One(r.main)) {
      assert r.main.value in RoundSpans(r);
    } else if k in ErrOf(r.after) {
      assert r.after[|r.after| - 1] in RoundSpans(r);
    }
    if s :| s in RoundSpans(r) && k in s.err {
      SpanErrReachesRound(kit, ctx, c, r, s);
    }
  }

  /** Whatever error kind a main step or a hook ends with reaches the case error, and its
      round is the last. */
  lemma StepErrorReachesCase(kit: Kit, ctx: Context, c: Case, w: World, i: nat, s: Span)
    ensures var run := RunCase(kit, ctx, c, w);
            i < |run.rounds| && s in RoundSpans(run.rounds[i]) && s.err != {}
            ==> i == |run.rounds| - 1 && s.err <= run.err
  {
    hide RunRounds;
    hide RunningReport;
    hide Lawful;
    hide RoundEnd;
    hide RoundErr;
    hide RoundSpans;
    RoundsChain(kit, ctx, c, c.steps, w);
    var rounds := RunCase(kit, ctx, c, w).rounds;
    if i < |rounds| && s in RoundSpans(rounds[i]) && s.err != {} {
      assert RoundAt(kit, ctx, c, c.steps, w, rounds, i);
      SpanErrReachesRound(kit, ctx, c, rounds[i], s);
    }
  }

  /** A case that times out or is cancelled is the last one its suite runs, and the
      suite returns that error. */
  lemma InterruptionEndsSuite(env: Env, conf: Conf, dir: SuiteDir, a: Api, i: nat)
    requires dir.templatesLoad && dir.cases.Listing?
    requires var runs := RunFiles(env, conf, CaseFiles(dir.cases.entries), a);
             i < |runs| && CutsShort(runs[i].err)
    ensures var runs := RunFiles(env, conf, CaseFiles(dir.cases.entries), a);
            i == |runs| - 1 && RunSuite(env, conf, dir, a).err == runs[i].err
  {
    hide RunFiles;
    hide LastFailure;
    hide FinishSuite;
    hide Join;
    hide CaseFiles;
    FilesRunAsPrefix(env, conf, CaseFiles(dir.cases.entries), a);
  }
}
