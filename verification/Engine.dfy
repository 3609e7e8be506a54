/** The top of a run: discovering suite directories, collecting what the pool
recorded in discovery order, and what the run report then says. */
module Engine {

  import opened Errors
  import opened Objects
  import opened Paths
  import opened Lifecycle
  import opened Reports
  import opened WorkerPool
  import opened ParallelRun
  import SuiteRun
  import SuiteLaws

  // ---- discovery ----

  datatype DirEntry = DirEntry(name: string, isDir: bool)

  function Discovered(entries: seq<DirEntry>): seq<string> {
    if entries == [] then []
    else
      var last := entries[|entries| - 1];
      var rest := Discovered(entries[..|entries| - 1]);
      if last.isDir && !Hidden(last.name) then rest + [last.name] else rest
  }

  method Discover(entries: seq<DirEntry>) returns (dirs: seq<string>)
    ensures dirs == Discovered(entries)
  {
    dirs := [];
    for n := 0 to |entries|
      invariant dirs == Discovered(entries[..n])
    {
      assert entries[..n + 1][..n] == entries[..n];
      if !entries[n].isDir {
        continue;
      }
      if Hidden(entries[n].name) {
        continue;
      }
      dirs := dirs + [entries[n].name];
    }
    assert entries[..|entries|] == entries;
  }

  predicate DistinctNames(entries: seq<DirEntry>) {
    forall i, j :: 0 <= i < j < |entries| ==> entries[i].name != entries[j].name
  }

  /** A directory is run exactly when it is a visible directory; a listing without
      repetitions gives keys without repetitions. */
  lemma {:induction false} DiscoveredExactly(entries: seq<DirEntry>)
    ensures forall d ::
      d in Discovered(entries) <==> exists i :: 0 <= i < |entries| && entries[i] == DirEntry(d, true) && !("." <= d)
    ensures DistinctNames(entries) ==> DistinctDirs(Discovered(entries))
  {
    if entries != [] {
      var k := |entries| - 1;
      var init, last := entries[..k], entries[k];
      DiscoveredExactly(init);
      assert entries == init + [last];
      if DistinctNames(entries) {
        assert forall d :: d in Discovered(init) ==> d != last.name;
      }
    }
  }

  // ---- collection ----

  function Listed(dirs: seq<string>, reports: map<string, SuiteReport>): seq<SuiteReport> {
    if dirs == [] then []
    else
      var last := dirs[|dirs| - 1];
      Listed(dirs[..|dirs| - 1], reports) + if last in reports then [reports[last]] else []
  }

  function Failures(dirs: seq<string>, errs: map<string, Err>): seq<Err> {
    if dirs == [] then []
    else
      var last := dirs[|dirs| - 1];
      Failures(dirs[..|dirs| - 1], errs) + if last in errs then [errs[last]] else []
  }

  function Totalled(total: nat, tests: seq<SuiteReport>): RunReport {
    RunReport(Count(SuiteStates(tests), {Passed, Skipped}), Count(SuiteStates(tests), {Failed}), total, tests)
  }

  /** From the recorded maps to the run report and the run error. */
  method Collect(dirs: seq<string>, reports: map<string, SuiteReport>, testErrs: map<string, Err>, runErr: Err)
    returns (report: RunReport, err: Err)
    ensures report == Totalled(|dirs|, Listed(dirs, reports))
    ensures err == runErr + Join(Failures(dirs, testErrs))
  {
    hide Join;
    var tests: seq<SuiteReport>, errs: seq<Err> := [], [];
    for n := 0 to |dirs|
      invariant tests == Listed(dirs[..n], reports) && errs == Failures(dirs[..n], testErrs)
    {
      assert dirs[..n + 1][..n] == dirs[..n];
      if dirs[n] in reports {
        tests := tests + [reports[dirs[n]]];
      }
      if dirs[n] in testErrs {
        errs := errs + [testErrs[dirs[n]]];
      }
    }
    assert dirs[..|dirs|] == dirs;
    var passed, failed := CountOutcomes(SuiteStates(tests));
    report := RunReport(passed, failed, |dirs|, tests);
    JoinFirst(runErr, errs);
    err := Join([runErr] + errs);
  }

  lemma JoinFirst(e: Err, errs: seq<Err>)
    ensures Join([e] + errs) == e + Join(errs)
  {
    assert ([e] + errs)[1..] == errs;
  }

  // ---- in discovery order ----

  function ReportsOf(rs: seq<Result>): seq<SuiteReport> {
    if rs == [] then []
    else
      var last := rs[|rs| - 1];
      ReportsOf(rs[..|rs| - 1]) + if last.report.Some? then [last.report.value] else []
  }

  function ErrsOf(rs: seq<Result>): seq<Err> {
    if rs == [] then []
    else
      var last := rs[|rs| - 1];
      ErrsOf(rs[..|rs| - 1]) + if last.err != {} then [last.err] else []
  }

  predicate MapsTo(d: string, reports: map<string, SuiteReport>, errs: map<string, Err>, r: Result) {
    && (if d in reports then r.report == Some(reports[d]) else r.report == None)
    && (if d in errs then errs[d] != {} && r.err == errs[d] else r.err == {})
  }

  lemma {:induction false} CollectedInOrder(
    dirs: seq<string>, reports: map<string, SuiteReport>, errs: map<string, Err>, rs: seq<Result>)
    requires |rs| == |dirs| && forall i :: 0 <= i < |dirs| ==> MapsTo(dirs[i], reports, errs, rs[i])
    ensures Listed(dirs, reports) == ReportsOf(rs) && Failures(dirs, errs) == ErrsOf(rs)
  {
    if dirs != [] {
      var k := |dirs| - 1;
      CollectedInOrder(dirs[..k], reports, errs, rs[..k]);
      assert MapsTo(dirs[k], reports, errs, rs[k]);
    }
  }

  /** What a complete run reports and returns. */
  function RunReportOf(dirs: seq<string>, s: ParallelRun.Engine): RunReport {
    Totalled(|dirs|, Listed(dirs, s.reports))
  }

  function RunErrOf(dirs: seq<string>, s: ParallelRun.Engine): Err {
    s.group.first + Join(Failures(dirs, s.errs))
  }

  /** Every complete interleaving, for every limit, lists the suites' own reports and
      joins the suites' own errors in discovery order. */
  lemma RunDependsOnResults(limit: nat, dirs: seq<string>, moves: seq<Move>)
    requires DistinctDirs(dirs) && Play(limit, dirs, moves).Some?
    requires Complete(|dirs|, Play(limit, dirs, moves).value.group)
    ensures var s := Play(limit, dirs, moves).value;
            && AllEnded(dirs, s)
            && RunReportOf(dirs, s) == Totalled(|dirs|, ReportsOf(Results(s)))
            && RunErrOf(dirs, s) == Join(ErrsOf(Results(s)))
  {
    CompleteMeansEnded(limit, dirs, moves);
    RecordsKept(limit, dirs, moves);
    SuitesNeverAbortEachOther(limit, dirs, moves);
    hide Play;
    hide Join;
    var s := Play(limit, dirs, moves).value;
    var rs := Results(s);
    forall i: nat | i < |dirs| ensures MapsTo(dirs[i], s.reports, s.errs, rs[i]) {
      assert RecordMatches(dirs, s, i);
    }
    CollectedInOrder(dirs, s.reports, s.errs, rs);
  }

  /** Two complete interleavings, under any two limits, in which the suites return
      the same results end in the same report and error. */
  lemma SchedulesAgree(limit: nat, other: nat, dirs: seq<string>, moves: seq<Move>, others: seq<Move>)
    requires DistinctDirs(dirs) && Play(limit, dirs, moves).Some? && Play(other, dirs, others).Some?
    requires var s, t := Play(limit, dirs, moves).value, Play(other, dirs, others).value;
             Complete(|dirs|, s.group) && Complete(|dirs|, t.group) && s.stage == t.stage
    ensures var s, t := Play(limit, dirs, moves).value, Play(other, dirs, others).value;
            RunReportOf(dirs, s) == RunReportOf(dirs, t) && RunErrOf(dirs, s) == RunErrOf(dirs, t)
  {
    RecordsKept(limit, dirs, moves);
    RecordsKept(other, dirs, others);
    SuitesNeverAbortEachOther(limit, dirs, moves);
    SuitesNeverAbortEachOther(other, dirs, others);
    hide Play;
    SameStagesSameMaps(dirs, Play(limit, dirs, moves).value, Play(other, dirs, others).value);
  }

  // ---- soundness ----

  /** A suite is reported failed exactly when it returned an error. */
  predicate Sound(r: Result) {
    r.report.Some? && r.report.value.state in {Passed, Failed} && (r.report.value.state.Failed? <==> r.err != {})
  }

  lemma SuiteResultSound(env: Env, conf: SuiteRun.Conf, dir: SuiteRun.SuiteDir, a: Api)
    ensures var out := SuiteRun.RunSuite(env, conf, dir, a); Sound(Result(Some(out.report), out.err))
  {
    hide SuiteRun.RunSuite;
    hide SuiteLaws.Loaded;
    hide Tally;
    hide SuiteActions;
    SuiteLaws.SuiteReportSound(env, conf, dir, a);
  }

  predicate AllSound(rs: seq<Result>) {
    forall i :: 0 <= i < |rs| ==> Sound(rs[i])
  }

  lemma {:induction false} SoundReports(rs: seq<Result>)
    requires AllSound(rs)
    ensures |ReportsOf(rs)| == |rs| && forall i :: 0 <= i < |rs| ==> Some(ReportsOf(rs)[i]) == rs[i].report
  {
    if rs != [] {
      var k := |rs| - 1;
      SoundReports(rs[..k]);
      assert Sound(rs[k]);
    }
  }

  lemma {:induction false} NilIffNoneFailed(rs: seq<Result>)
    ensures Join(ErrsOf(rs)) == {} <==> forall i :: 0 <= i < |rs| ==> rs[i].err == {}
  {
    if rs != [] {
      var k := |rs| - 1;
      NilIffNoneFailed(rs[..k]);
      var last := if rs[k].err != {} then [rs[k].err] else [];
      JoinAppend(ErrsOf(rs[..k]), last);
      assert Join(last) == {} <==> rs[k].err == {};
      assert rs == rs[..k] + [rs[k]];
    }
  }

  /** The clauses a reader of the run report relies on. */
  ghost predicate Accounts(report: RunReport, err: Err, rs: seq<Result>) {
    && |report.tests| == report.total == |rs| == report.passed + report.failed
    && (forall i :: 0 <= i < |rs| ==> Some(report.tests[i]) == rs[i].report)
    && (err == {} <==> report.failed == 0)
    && (report.failed == 0 <==> forall i :: 0 <= i < |rs| ==> !report.tests[i].state.Failed?)
    && report.passed == |Having(SuiteStates(report.tests), {Passed, Skipped})|
    && report.failed == |Having(SuiteStates(report.tests), {Failed})|
  }

  lemma TestsCounted(tests: seq<SuiteReport>)
    requires forall i :: 0 <= i < |tests| ==> tests[i].state in {Passed, Failed}
    ensures var report := Totalled(|tests|, tests);
            && report.passed + report.failed == |tests|
            && (report.failed == 0 <==> forall i :: 0 <= i < |tests| ==> !tests[i].state.Failed?)
            && report.passed == |Having(SuiteStates(tests), {Passed, Skipped})|
            && report.failed == |Having(SuiteStates(tests), {Failed})|
  {
    var states := SuiteStates(tests);
    CountIsSize(states, {Passed, Skipped});
    CountIsSize(states, {Failed});
    hide Having;
    assert forall i :: 0 <= i < |tests| ==> states[i] == tests[i].state;
    hide SuiteStates;
    CountsAddUp(states, {Passed, Skipped}, {Failed});
  }

  lemma SoundStates(rs: seq<Result>, tests: seq<SuiteReport>)
    requires AllSound(rs) && |tests| == |rs| && forall i :: 0 <= i < |rs| ==> Some(tests[i]) == rs[i].report
    ensures forall i :: 0 <= i < |rs| ==>
      tests[i].state in {Passed, Failed} && (tests[i].state.Failed? <==> rs[i].err != {})
  {
    forall i | 0 <= i < |rs|
      ensures tests[i].state in {Passed, Failed} && (tests[i].state.Failed? <==> rs[i].err != {})
    {
      assert Sound(rs[i]);
    }
  }

  lemma ResultsAccounted(rs: seq<Result>)
    requires AllSound(rs)
    ensures Accounts(Totalled(|rs|, ReportsOf(rs)), Join(ErrsOf(rs)), rs)
  {
    hide Join;
    hide ReportsOf;
    hide ErrsOf;
    hide AllSound;
    hide Count;
    hide Having;
    hide SuiteStates;
    SoundReports(rs);
    NilIffNoneFailed(rs);
    SoundStates(rs, ReportsOf(rs));
    TestsCounted(ReportsOf(rs));
  }

  /** With a readable work directory: one report per directory in discovery order,
      passed plus failed is their number, and the error is nil exactly when no suite
      is failed. */
  lemma RunReportSound(limit: nat, dirs: seq<string>, moves: seq<Move>)
    requires DistinctDirs(dirs) && Play(limit, dirs, moves).Some?
    requires Complete(|dirs|, Play(limit, dirs, moves).value.group)
    requires forall st :: st in Play(limit, dirs, moves).value.stage ==> st.Ended? ==> Sound(st.result)
    ensures var s := Play(limit, dirs, moves).value;
            AllEnded(dirs, s) && Accounts(RunReportOf(dirs, s), RunErrOf(dirs, s), Results(s))
  {
    RunDependsOnResults(limit, dirs, moves);
    hide *;
    var s := Play(limit, dirs, moves).value;
    ResultsSound(dirs, s);
    ResultsAccounted(Results(s));
  }

  /** The result is what some suite returned in some cluster. */
  ghost predicate OfSuite(r: Result) {
    exists env, conf, dir, a ::
      var out := SuiteRun.RunSuite(env, conf, dir, a); r == Result(Some(out.report), out.err)
  }

  lemma SuiteResultsSound(stages: seq<Stage>)
    requires forall st :: st in stages ==> st.Ended? ==> OfSuite(st.result)
    ensures forall st :: st in stages ==> st.Ended? ==> Sound(st.result)
  {
    hide SuiteRun.RunSuite;
    hide Sound;
    forall st | st in stages && st.Ended? ensures Sound(st.result) {
      var env, conf, dir, a :| st.result
        == Result(Some(SuiteRun.RunSuite(env, conf, dir, a).report), SuiteRun.RunSuite(env, conf, dir, a).err);
      SuiteResultSound(env, conf, dir, a);
    }
  }

  /** So every complete run of suites accounts for them, under any limit. */
  lemma SuitesRunSound(limit: nat, dirs: seq<string>, moves: seq<Move>)
    requires DistinctDirs(dirs) && Play(limit, dirs, moves).Some?
    requires Complete(|dirs|, Play(limit, dirs, moves).value.group)
    requires forall st :: st in Play(limit, dirs, moves).value.stage ==> st.Ended? ==> OfSuite(st.result)
    ensures var s := Play(limit, dirs, moves).value;
            AllEnded(dirs, s) && Accounts(RunReportOf(dirs, s), RunErrOf(dirs, s), Results(s))
  {
    hide *;
    SuiteResultsSound(Play(limit, dirs, moves).value.stage);
    RunReportSound(limit, dirs, moves);
  }

  lemma ResultsSound(dirs: seq<string>, s: ParallelRun.Engine)
    requires AllEnded(dirs, s) && forall st :: st in s.stage ==> st.Ended? ==> Sound(st.result)
    ensures AllSound(Results(s)) && |Results(s)| == |dirs|
  {
    forall i | 0 <= i < |dirs| ensures Sound(Results(s)[i]) {
      assert s.stage[i] in s.stage;
    }
  }
}
