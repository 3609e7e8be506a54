/** What the reports of cases, files and suites say, column by column and reason by
reason, and what each kind of case file comes to. */
module ReportLaws {

  import opened Errors
  import opened Objects
  import opened Lifecycle
  import opened Reports
  import opened ReportCounts
  import opened CaseTrace
  import opened TraceLaws
  import opened Actions
  import opened SuiteRun
  import opened SuiteLaws

  /** Passed counts passed and skipped reports, failed the failed ones. */
  ghost predicate Columns(passed: nat, failed: nat, states: seq<State>) {
    passed == |Having(states, {Passed, Skipped})| && failed == |Having(states, {Failed})|
  }

  lemma CountsAreColumns(states: seq<State>)
    ensures Columns(Count(states, {Passed, Skipped}), Count(states, {Failed}), states)
  {
    CountIsSize(states, {Passed, Skipped});
    CountIsSize(states, {Failed});
  }

  // ---- cases ----

  /** What is listed for a step whose before-hooks failed. */
  predicate SkippedFor(st: MaybeStep, reason: Err, r: StepReport) {
    && r.state.Skipped? && r.reason == reason && r.actions == []
    && r.passed == 0 && r.failed == 0 && r.stats == Stats(0, 0, 0)
    && (st.Some? ==> r.name == st.value.name && r.optional == st.value.optional)
  }

  /** What is listed for a round: the report of the main step or, where a before-hook
      failed, a skipped one with that reason. */
  ghost predicate ListedFor(r: Round, listed: StepReport) {
    if r.main.Some? then listed == r.main.value.report else SkippedFor(r.step, ErrOf(r.before), listed)
  }

  lemma RoundListed(r: Round)
    ensures ListedFor(r, MainReport(r))
  {
    hide Configured;
  }

  lemma RoundsListed(rounds: seq<Round>)
    ensures |MainReports(rounds)| == |rounds|
    ensures forall i :: 0 <= i < |rounds| ==> ListedFor(rounds[i], MainReports(rounds)[i])
  {
    hide ListedFor;
    hide MainReport;
    forall i | 0 <= i < |rounds| ensures ListedFor(rounds[i], MainReports(rounds)[i]) {
      RoundListed(rounds[i]);
    }
  }

  /** The hook reports, absent while there are none. */
  predicate HooksListed(before: seq<StepReport>, after: seq<StepReport>, hooks: Option<HooksReport>) {
    if before == [] && after == [] then hooks.None? else hooks == Some(HooksReport(before, after))
  }

  lemma RunningReads(c: Case, rounds: seq<Round>)
    ensures var r := RunningReport(c, rounds);
            && r.name == c.name && r.reason == {} && r.state.Unset? && r.steps == MainReports(rounds)
            && Columns(r.passed, r.failed, StepStates(r.steps))
            && HooksListed(BeforeReports(rounds), AfterReports(rounds), r.hooks)
  {
    hide BeforeReports;
    hide AfterReports;
    hide MainReports;
    hide Count;
    hide Columns;
    CountsAreColumns(StepStates(MainReports(rounds)));
  }

  /** A case report: its name, columns, reason and hook reports, and one entry per round. */
  lemma CaseReportReads(kit: Kit, ctx: Context, c: Case, w: World)
    ensures var run := RunCase(kit, ctx, c, w);
            var final := FinishCase(run.report, run.err);
            && final.name == c.name && final.reason == run.err
            && Columns(final.passed, final.failed, StepStates(final.steps))
            && HooksListed(BeforeReports(run.rounds), AfterReports(run.rounds), final.hooks)
            && |final.steps| == |run.rounds|
            && forall i :: 0 <= i < |run.rounds| ==> ListedFor(run.rounds[i], final.steps[i])
  {
    var run := RunCase(kit, ctx, c, w);
    assert run.report == RunningReport(c, run.rounds) by {
      hide RunRounds;
      hide RunningReport;
    }
    hide RunCase;
    RunningReads(c, run.rounds);
    RoundsListed(run.rounds);
    hide RunningReport;
    hide BeforeReports;
    hide AfterReports;
    hide MainReports;
    hide CaseStats;
    hide Columns;
    hide HooksListed;
    hide ListedFor;
  }

  /** The reports of some spans. */
  function SpanReports(spans: seq<Span>): seq<StepReport> {
    seq(|spans|, i requires 0 <= i < |spans| => spans[i].report)
  }

  /** The hook reports of a case are those of its rounds, in order. */
  lemma HookReportsAppend(a: seq<Round>, r: Round)
    ensures BeforeReports(a + [r]) == BeforeReports(a) + SpanReports(r.before)
    ensures AfterReports(a + [r]) == AfterReports(a) + SpanReports(r.after)
  {
    assert (a + [r])[..|a|] == a;
  }

  // ---- case files ----

  /** The case shares no tag with those asked for, if any are. */
  predicate NotAskedFor(conf: Conf, c: Case) {
    conf.tags != [] && forall t :: t in c.tags ==> t !in conf.tags
  }

  /** A file that does not parse, or is not asked for, leaves the cluster alone; the one
      fails, the other is skipped, and nothing else is ever skipped. */
  lemma FilesNotRun(env: Env, conf: Conf, file: CaseFile, a: Api)
    ensures var r := RunFile(env, conf, file, a);
            && (file.parsed.None? ==> r.post == a && r.err == {NotParsed} && r.report.state.Failed?)
            && (r.report.state.Skipped? <==> file.parsed.Some? && NotAskedFor(conf, file.parsed.value))
            && (r.report.state.Skipped? ==> r.post == a && r.err == {} && r.report.name == file.parsed.value.name)
            && (r.report.state.Failed? ==> r.report.reason == r.err)
  {
    hide RunRounds;
    hide Prelude;
    hide KitOf;
    hide Count;
    hide SumSteps;
    if file.parsed.Some? {
      var c := file.parsed.value;
      NotSelectedIff(conf, c);
    }
  }

  lemma NotSelectedIff(conf: Conf, c: Case)
    ensures !Selected(conf, c) <==> NotAskedFor(conf, c)
  {
  }

  /** A live case that is asked for first connects, and ends there if it cannot. */
  lemma FilesConnectFirst(env: Env, conf: Conf, file: CaseFile, a: Api)
    requires !env.dryRun && file.parsed.Some? && !NotAskedFor(conf, file.parsed.value)
    requires env.connect(a.clock) != {}
    ensures var r := RunFile(env, conf, file, a);
            r.err == env.connect(a.clock) && r.post == a.(clock := a.clock + 1)
  {
    hide RunCase;
    hide FinishCase;
    NotSelectedIff(conf, file.parsed.value);
  }

  // ---- suites ----

  /** Failed, but not by a cancellation or a deadline. */
  predicate PlainlyFailed(e: Err) {
    e != {} && !CutsShort(e)
  }

  /** The last of these, if any, has this error. */
  ghost predicate LastPlainFailure(runs: seq<FileRun>, i: int, e: Err) {
    && 0 <= i < |runs| && e == runs[i].err && PlainlyFailed(e)
    && forall j :: i < j < |runs| ==> !PlainlyFailed(runs[j].err)
  }

  lemma {:induction false} LastFailureIs(runs: seq<FileRun>)
    ensures var e := LastFailure(runs);
            if e == {} then forall i :: 0 <= i < |runs| ==> !PlainlyFailed(runs[i].err)
            else exists i :: LastPlainFailure(runs, i, e)
  {
    if runs != [] {
      var k := |runs| - 1;
      var init, last := runs[..k], runs[k];
      LastFailureIs(init);
      assert PlainlyFailed(last.err) <==> last.err != {} && !Interrupts(last.err);
      assert LastFailure(runs) == if PlainlyFailed(last.err) then last.err else LastFailure(init);
      assert runs == init + [last];
      hide PlainlyFailed;
      hide LastFailure;
      if PlainlyFailed(last.err) {
        assert LastPlainFailure(runs, k, last.err);
      } else if i :| LastPlainFailure(init, i, LastFailure(init)) {
        assert LastPlainFailure(runs, i, LastFailure(init));
      }
    }
  }

  /** The error of a suite: that of a case that was cut short, alone, or everything its
      cases failed with. */
  lemma SuiteErrKinds(runs: seq<FileRun>)
    ensures if runs != [] && CutsShort(runs[|runs| - 1].err) then SuiteErr(runs) == runs[|runs| - 1].err
            else forall k :: k in SuiteErr(runs) <==> exists i :: 0 <= i < |runs| && k in runs[i].err
  {
    var errs := FileErrs(runs);
    forall k ensures k in Join(errs) <==> exists i :: 0 <= i < |runs| && k in runs[i].err {
      if i :| 0 <= i < |runs| && k in runs[i].err {
        assert k in errs[i];
      }
      if k in Join(errs) {
        var i :| 0 <= i < |errs| && k in errs[i];
        assert k in runs[i].err;
      }
    }
  }

  /** The reason of a suite is that of the last case that failed other than by being cut
      short, if there is one, and otherwise the suite's error. */
  ghost predicate ReasonReads(report: SuiteReport, err: Err, runs: seq<FileRun>) {
    || (exists i :: LastPlainFailure(runs, i, report.reason))
    || ((forall i :: 0 <= i < |runs| ==> !PlainlyFailed(runs[i].err)) && report.reason == err)
  }

  /** A suite report: its name, its columns, its stats as positions in the tree of its case
      reports, and its reason. */
  lemma SuiteReportReads(env: Env, conf: Conf, dir: SuiteDir, a: Api)
    ensures var out := RunSuite(env, conf, dir, a);
            var cases := out.report.cases;
            && out.report.name == dir.name
            && Columns(out.report.passed, out.report.failed, CaseStates(cases))
            && out.report.stats.ensured == |Spots(cases, EnsureName)|
            && out.report.stats.patched == |Spots(cases, PatchName)|
            && out.report.stats.deleted == |Spots(cases, DeleteName)|
            && (dir.templatesLoad && dir.cases.Listing? ==>
                  && cases == FileReports(RunFiles(env, conf, CaseFiles(dir.cases.entries), a))
                  && ReasonReads(out.report, out.err, RunFiles(env, conf, CaseFiles(dir.cases.entries), a)))
            && (!dir.templatesLoad || dir.cases.Unreadable? ==> out.err == {NotLoaded} && out.post == a && cases == [])
            && (dir.templatesLoad && dir.cases.Missing? ==> out.err == {} && out.post == a && cases == [])
  {
    hide RunFiles;
    hide SuiteErr;
    hide SumCases;
    hide SoundRuns;
    hide AllTallied;
    hide CaseFiles;
    hide Count;
    hide Spots;
    hide Columns;
    hide LastFailure;
    hide FileReports;
    hide CaseStates;
    var listed := dir.templatesLoad && dir.cases.Listing?;
    var runs := if listed then RunFiles(env, conf, CaseFiles(dir.cases.entries), a) else [];
    if listed {
      FilesSound(env, conf, CaseFiles(dir.cases.entries), a);
    } else {
      NoRunsSound();
    }
    LastFailureIs(runs);
    SuiteReportsSound(runs);
    NoReports();
    StatsCountTree(FileReports(runs));
    CountsAreColumns(CaseStates(FileReports(runs)));
  }

  lemma NoReports()
    ensures FileReports([]) == []
  {
  }
}
