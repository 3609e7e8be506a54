/** A test suite: its case files in order, one fresh kube service each, and the
early stop after a cancelled or timed-out case. */
module SuiteRun {

  import opened Errors
  import opened Objects
  import opened Paths
  import opened Lifecycle
  import opened Reports
  import opened CaseTrace
  import opened KubeService
  import opened Actions
  import opened CaseRunner

  /** A directory entry under cases/, with what parsing it as a case yields. */
  datatype CaseFile = CaseFile(name: string, isDir: bool, parsed: Option<Case>)

  datatype CasesDir = Missing | Unreadable | Listing(entries: seq<CaseFile>)

  datatype SuiteDir = SuiteDir(name: string, templatesLoad: bool, cases: CasesDir)

  /** ensureNamespace: a run namespace was given; env.namespace is its name. */
  datatype Conf = Conf(ensureNamespace: bool, tags: seq<string>, annotations: map<string, string>)

  // ---- one case file ----

  predicate Selected(conf: Conf, c: Case) {
    conf.tags == [] || exists t :: t in c.tags && t in conf.tags
  }

  const CaseAnnotation := "testing.kube2e.io/case"

  function CaseContext(conf: Conf, c: Case): Context {
    Context(c.objects, conf.annotations[CaseAnnotation := c.name])
  }

  function NamespaceObject(env: Env): Obj {
    Obj("", "v1", "Namespace", "", env.namespace, map[], "")
  }

  /** A fresh service: connected unless dry-running, its cache empty. */
  function Connect(env: Env, a: Api): (World, Err) {
    if env.dryRun then (World(a, map[]), {})
    else (World(a.(clock := a.clock + 1), map[]), env.connect(a.clock))
  }

  /** The run namespace is applied with caching off. */
  function Prelude(env: Env, conf: Conf, a: Api): (World, Err) {
    var (w, e) := Connect(env, a);
    if e != {} || !conf.ensureNamespace then (w, e)
    else Ensure(env, w, NamespaceObject(env), map[], false, 1)
  }

  datatype FileRun = FileRun(post: Api, report: CaseReport, err: Err)

  const BlankCase := CaseReport("", Unset, {}, None, 0, 0, 0, NoStats, [])

  function RunFile(env: Env, conf: Conf, file: CaseFile, a: Api): FileRun {
    match file.parsed
    case None => FileRun(a, FinishCase(BlankCase, {NotParsed}), {NotParsed})
    case Some(c) =>
      if !Selected(conf, c) then FileRun(a, NewReport(c).(state := Skipped), {})
      else
        var (w, e) := Prelude(env, conf, a);
        if e != {} then FileRun(w.api, FinishCase(NewReport(c), e), e)
        else
          var run := RunCase(KitOf(env), CaseContext(conf, c), c, w);
          FileRun(run.end.api, FinishCase(run.report, run.err), run.err)
  }

  // ---- the case loop ----

  function CaseFiles(entries: seq<CaseFile>): seq<CaseFile> {
    if entries == [] then []
    else
      var last := entries[|entries| - 1];
      var rest := CaseFiles(entries[..|entries| - 1]);
      if !last.isDir && IsCaseFile(last.name) then rest + [last] else rest
  }

  /** Files in order, up to and including the first whose error interrupts. */
  function RunFiles(env: Env, conf: Conf, files: seq<CaseFile>, a: Api): (runs: seq<FileRun>)
    ensures |runs| <= |files|
  {
    if files == [] then []
    else
      var r := RunFile(env, conf, files[0], a);
      if Interrupts(r.err) then [r] else [r] + RunFiles(env, conf, files[1..], r.post)
  }

  function FilesEnd(a: Api, runs: seq<FileRun>): Api {
    if runs == [] then a else runs[|runs| - 1].post
  }

  function FileErrs(runs: seq<FileRun>): seq<Err> {
    seq(|runs|, i requires 0 <= i < |runs| => runs[i].err)
  }

  function FileReports(runs: seq<FileRun>): seq<CaseReport> {
    seq(|runs|, i requires 0 <= i < |runs| => runs[i].report)
  }

  /** An interruption is returned alone; other case errors are joined. */
  function SuiteErr(runs: seq<FileRun>): Err {
    if runs != [] && Interrupts(runs[|runs| - 1].err) then runs[|runs| - 1].err else Join(FileErrs(runs))
  }

  /** The error of the last case that failed without interrupting. */
  function LastFailure(runs: seq<FileRun>): Err {
    if runs == [] then {}
    else
      var e := runs[|runs| - 1].err;
      if e != {} && !Interrupts(e) then e else LastFailure(runs[..|runs| - 1])
  }

  /** finishReport of a suite. */
  function FinishSuite(name: string, reason: Err, cases: seq<CaseReport>, err: Err): SuiteReport {
    SuiteReport(name, if err == {} then Passed else Failed, if reason == {} then err else reason,
      Count(CaseStates(cases), {Passed, Skipped}), Count(CaseStates(cases), {Failed}),
      |cases|, SumCases(cases), cases)
  }

  datatype SuiteOutcome = SuiteOutcome(post: Api, report: SuiteReport, err: Err)

  function RunSuite(env: Env, conf: Conf, dir: SuiteDir, a: Api): SuiteOutcome {
    if !dir.templatesLoad then SuiteOutcome(a, FinishSuite(dir.name, {}, [], {NotLoaded}), {NotLoaded})
    else match dir.cases
      case Missing => SuiteOutcome(a, FinishSuite(dir.name, {}, [], {}), {})
      case Unreadable => SuiteOutcome(a, FinishSuite(dir.name, {}, [], {NotLoaded}), {NotLoaded})
      case Listing(entries) =>
        var runs := RunFiles(env, conf, CaseFiles(entries), a);
        SuiteOutcome(FilesEnd(a, runs),
          FinishSuite(dir.name, LastFailure(runs), FileReports(runs), SuiteErr(runs)), SuiteErr(runs))
  }

  // ---- as written ----

  method AnyTagMatches(items: seq<string>, requested: seq<string>) returns (found: bool)
    ensures found <==> exists t :: t in items && t in requested
  {
    for n := 0 to |items|
      invariant forall i :: 0 <= i < n ==> items[i] !in requested
    {
      if items[n] in requested {
        return true;
      }
    }
    return false;
  }

  method EnterCase(server: ApiServer, conf: Conf) returns (svc: Service, err: Err)
    modifies server
    ensures svc.server == server && svc.Valid() && svc.env == server.env && fresh(svc) && fresh(svc.applied)
    ensures (svc.World(), err) == Prelude(server.env, conf, old(server.State()))
  {
    hide Ensure;
    err := {};
    if !server.env.dryRun {
      err := server.env.connect(server.clock);
      server.clock := server.clock + 1;
    }
    svc := new Service(server);
    if err == {} && conf.ensureNamespace {
      err := svc.Ensure(NamespaceObject(server.env), map[], false, 1);
    }
  }

  method RunCaseFile(server: ApiServer, conf: Conf, file: CaseFile) returns (report: CaseReport, err: Err)
    modifies server
    ensures FileRun(server.State(), report, err) == RunFile(server.env, conf, file, old(server.State()))
  {
    hide Prelude;
    hide KitOf;
    hide RunCase;
    hide FinishCase;
    if file.parsed.None? {
      report := FinishCaseReport(BlankCase, {NotParsed});
      return report, {NotParsed};
    }
    var c := file.parsed.value;
    if |conf.tags| > 0 {
      var matches := AnyTagMatches(c.tags, conf.tags);
      if !matches {
        return NewReport(c).(state := Skipped), {};
      }
    }
    var svc, e := EnterCase(server, conf);
    if e != {} {
      report := FinishCaseReport(NewReport(c), e);
      return report, e;
    }
    var running, runErr, rounds := RunCaseSteps(svc, CaseContext(conf, c), c);
    report := FinishCaseReport(running, runErr);
    err := runErr;
  }

  method ListCaseFiles(entries: seq<CaseFile>) returns (files: seq<CaseFile>)
    ensures files == CaseFiles(entries)
  {
    hide Ext;
    files := [];
    for n := 0 to |entries|
      invariant files == CaseFiles(entries[..n])
    {
      assert entries[..n + 1][..n] == entries[..n];
      if entries[n].isDir || Ext(entries[n].name) != ".yaml" {
        continue;
      }
      files := files + [entries[n]];
    }
    assert entries[..|entries|] == entries;
  }

  method FinishSuiteReport(name: string, reason: Err, cases: seq<CaseReport>, passed: nat, failed: nat, err: Err)
    returns (report: SuiteReport)
    requires passed == Count(CaseStates(cases), {Passed, Skipped}) && failed == Count(CaseStates(cases), {Failed})
    ensures report == FinishSuite(name, reason, cases, err)
  {
    var stats := SumStats(cases);
    report := SuiteReport(name, Unset, reason, passed, failed, |cases|, stats, cases);
    if err != {} {
      report := report.(state := Failed);
      if report.reason == {} {
        report := report.(reason := err);
      }
      return;
    }
    report := report.(state := Passed);
  }

  /** What the loop has accumulated after some file runs. */
  ghost predicate Accumulated(
    runs: seq<FileRun>, cases: seq<CaseReport>, passed: nat, failed: nat, runErr: Err, reason: Err)
  {
    && cases == FileReports(runs)
    && passed == Count(CaseStates(cases), {Passed, Skipped}) && failed == Count(CaseStates(cases), {Failed})
    && runErr == Join(FileErrs(runs)) && reason == LastFailure(runs)
  }

  lemma OneMoreErr(errs: seq<Err>, e: Err)
    ensures Join(errs + [e]) == Join(errs) + e
  {
    assert Join([e]) == e by { assert [e][1..] == []; }
    JoinAppend(errs, [e]);
  }

  lemma OneMoreRun(runs: seq<FileRun>, r: FileRun)
    ensures FileReports(runs + [r]) == FileReports(runs) + [r.report]
    ensures Join(FileErrs(runs + [r])) == Join(FileErrs(runs)) + r.err
    ensures LastFailure(runs + [r]) == if r.err != {} && !Interrupts(r.err) then r.err else LastFailure(runs)
  {
    hide Join;
    assert FileErrs(runs + [r]) == FileErrs(runs) + [r.err];
    OneMoreErr(FileErrs(runs), r.err);
    assert (runs + [r])[..|runs|] == runs;
  }

  /** test.Run over the case files: reports appended and recounted, errors joined,
      an interruption returned at once. */
  method RunCaseFiles(server: ApiServer, conf: Conf, files: seq<CaseFile>)
    returns (cases: seq<CaseReport>, passed: nat, failed: nat, reason: Err, err: Err, ghost runs: seq<FileRun>)
    modifies server
    ensures runs == RunFiles(server.env, conf, files, old(server.State()))
    ensures server.State() == FilesEnd(old(server.State()), runs)
    ensures cases == FileReports(runs) && reason == LastFailure(runs) && err == SuiteErr(runs)
    ensures passed == Count(CaseStates(cases), {Passed, Skipped}) && failed == Count(CaseStates(cases), {Failed})
  {
    hide *;
    ghost var a0 := server.State();
    var runErr: Err;
    cases, passed, failed, reason, runErr, runs := [], 0, 0, {}, {}, [];
    NothingAccumulated();
    RemainingAtStart(server.env, conf, files, a0);
    for n := 0 to |files|
      invariant Accumulated(runs, cases, passed, failed, runErr, reason)
      invariant Remaining(server.env, conf, files, n, a0, runs, server.State())
    {
      ghost var here := server.State();
      var report, caseErr := RunCaseFile(server, conf, files[n]);
      ghost var r := FileRun(server.State(), report, caseErr);
      RemainingStep(server.env, conf, files, n, a0, runs, here, r);
      cases, passed, failed, runErr, reason :=
        Accumulate(runs, r, cases, runErr, reason, report, caseErr, passed, failed);
      runs := runs + [r];
      if Interrupts(caseErr) {
        AccumulatedParts(runs, cases, passed, failed, runErr, reason);
        err := caseErr;
        return;
      }
    }
    RemainingAtEnd(server.env, conf, files, a0, runs, server.State());
    AccumulatedParts(runs, cases, passed, failed, runErr, reason);
    err := runErr;
  }

  /** Before file n: the files so far ran without interruption, and the rest is to run from here. */
  ghost predicate Remaining(env: Env, conf: Conf, files: seq<CaseFile>, n: nat, a0: Api, runs: seq<FileRun>, a: Api)
    requires n <= |files|
  {
    && a == FilesEnd(a0, runs)
    && (runs != [] ==> !Interrupts(runs[|runs| - 1].err))
    && RunFiles(env, conf, files, a0) == runs + RunFiles(env, conf, files[n..], a)
  }

  lemma RemainingAtStart(env: Env, conf: Conf, files: seq<CaseFile>, a: Api)
    ensures Remaining(env, conf, files, 0, a, [], a)
  {
    hide RunFiles;
    assert files[0..] == files;
  }

  lemma RunFilesUnfold(env: Env, conf: Conf, files: seq<CaseFile>, n: nat, a: Api)
    requires n < |files|
    ensures var r := RunFile(env, conf, files[n], a);
            RunFiles(env, conf, files[n..], a)
            == if Interrupts(r.err) then [r] else [r] + RunFiles(env, conf, files[n + 1..], r.post)
  {
    hide RunFile;
    assert files[n..][1..] == files[n + 1..] && files[n..][0] == files[n];
  }

  lemma EndsWith(runs: seq<FileRun>, r: FileRun, a: Api)
    ensures FilesEnd(a, runs + [r]) == r.post
    ensures Interrupts(r.err) ==> SuiteErr(runs + [r]) == r.err
  {
  }

  lemma RemainingStep(
    env: Env, conf: Conf, files: seq<CaseFile>, n: nat, a0: Api, runs: seq<FileRun>, a: Api, r: FileRun)
    requires n < |files| && Remaining(env, conf, files, n, a0, runs, a)
    requires r == RunFile(env, conf, files[n], a)
    ensures !Interrupts(r.err) ==> Remaining(env, conf, files, n + 1, a0, runs + [r], r.post)
    ensures Interrupts(r.err) ==>
      && RunFiles(env, conf, files, a0) == runs + [r]
      && r.post == FilesEnd(a0, runs + [r]) && r.err == SuiteErr(runs + [r])
  {
    hide RunFile;
    hide RunFiles;
    hide SuiteErr;
    hide FilesEnd;
    hide Interrupts;
    EndsWith(runs, r, a0);
    RunFilesUnfold(env, conf, files, n, a);
    var rest := RunFiles(env, conf, files[n + 1..], r.post);
    assert runs + ([r] + rest) == runs + [r] + rest;
  }

  lemma RemainingAtEnd(env: Env, conf: Conf, files: seq<CaseFile>, a0: Api, runs: seq<FileRun>, a: Api)
    requires Remaining(env, conf, files, |files|, a0, runs, a)
    ensures RunFiles(env, conf, files, a0) == runs && a == FilesEnd(a0, runs)
    ensures SuiteErr(runs) == Join(FileErrs(runs))
  {
    hide RunFile;
    hide Join;
    assert runs + [] == runs;
  }

  lemma NothingAccumulated()
    ensures Accumulated([], [], 0, 0, {}, {})
  {
  }

  lemma AccumulatedParts(
    runs: seq<FileRun>, cases: seq<CaseReport>, passed: nat, failed: nat, runErr: Err, reason: Err)
    requires Accumulated(runs, cases, passed, failed, runErr, reason)
    ensures cases == FileReports(runs) && reason == LastFailure(runs) && runErr == Join(FileErrs(runs))
    ensures passed == Count(CaseStates(cases), {Passed, Skipped}) && failed == Count(CaseStates(cases), {Failed})
  {
  }

  /** The body of the case loop, after a case has run. */
  method Accumulate(ghost runs: seq<FileRun>, ghost r: FileRun, cases: seq<CaseReport>, runErr: Err, reason: Err,
                    report: CaseReport, caseErr: Err, ghost passed: nat, ghost failed: nat)
    returns (cases': seq<CaseReport>, passed': nat, failed': nat, runErr': Err, reason': Err)
    requires Accumulated(runs, cases, passed, failed, runErr, reason)
    requires r.report == report && r.err == caseErr
    ensures Accumulated(runs + [r], cases', passed', failed', runErr', reason')
  {
    hide Join;
    hide LastFailure;
    OneMoreRun(runs, r);
    cases' := cases + [report];
    passed', failed' := CountOutcomes(CaseStates(cases'));
    runErr', reason' := runErr + caseErr, reason;
    if caseErr != {} && !Interrupts(caseErr) {
      reason' := caseErr;
    }
  }

  method RunTest(server: ApiServer, conf: Conf, dir: SuiteDir) returns (report: SuiteReport, err: Err)
    modifies server
    ensures SuiteOutcome(server.State(), report, err) == RunSuite(server.env, conf, dir, old(server.State()))
  {
    hide RunFiles;
    hide FinishSuite;
    hide LastFailure;
    hide SuiteErr;
    if !dir.templatesLoad || dir.cases.Unreadable? {
      report := FinishSuiteReport(dir.name, {}, [], 0, 0, {NotLoaded});
      return report, {NotLoaded};
    }
    if dir.cases.Missing? {
      report := FinishSuiteReport(dir.name, {}, [], 0, 0, {});
      return report, {};
    }
    var files := ListCaseFiles(dir.cases.entries);
    var cases, passed, failed, reason, runErr, runs := RunCaseFiles(server, conf, files);
    report := FinishSuiteReport(dir.name, reason, cases, passed, failed, runErr);
    err := runErr;
  }
}
