/** A run of a work directory with one suite at a time, from the directory listing to
the report and the error. */
module SequentialRun {

  import opened Errors
  import opened Objects
  import opened Paths
  import opened Lifecycle
  import opened WorkerPool
  import opened ParallelRun
  import opened Engine
  import opened FileTree
  import opened SuiteViews
  import opened ImageRun
  import SuiteRun

  // ---- what is discovered ----

  function Listing(root: seq<Entry>): seq<DirEntry> {
    seq(|root|, i requires 0 <= i < |root| => DirEntry(root[i].name, root[i].node.Dir?))
  }

  function Names(views: seq<SuiteView>): seq<string> {
    seq(|views|, i requires 0 <= i < |views| => views[i].name)
  }

  lemma {:induction false} DiscoversViews(root: seq<Entry>)
    ensures Discovered(Listing(root)) == Names(Views(root))
  {
    hide CasesOf;
    hide TemplatesOf;
    hide Hidden;
    if root != [] {
      var k := |root| - 1;
      var init, last := root[..k], root[k];
      DiscoversViews(init);
      assert Listing(root)[..k] == Listing(init);
      if last.node.Dir? && !Hidden(last.name) {
        assert Names(Views(init) + [View(last)]) == Names(Views(init)) + [last.name];
      } else {
        assert Views(root) == Views(init);
      }
    }
  }

  lemma SortedNamesDistinct(root: seq<Entry>)
    requires Sorted(root)
    ensures DistinctDirs(Discovered(Listing(root)))
  {
    forall i, j | 0 <= i < j < |root| ensures root[i].name != root[j].name {
      LessIrreflexive(root[j].name);
    }
    DiscoveredExactly(Listing(root));
  }

  // ---- what the suites return ----

  /** The result of each suite, run where the one before left the cluster. */
  function ViewResults(env: Env, lib: Library, conf: RunConf, views: seq<SuiteView>, a: Api): seq<Result> {
    if views == [] then []
    else
      var init := views[..|views| - 1];
      var out := RunView(env, lib, conf, views[|views| - 1], RunViews(env, lib, conf, init, a).post);
      ViewResults(env, lib, conf, init, a) + [Result(Some(out.report), out.err)]
  }

  lemma ViewSound(env: Env, lib: Library, conf: RunConf, v: SuiteView, a: Api)
    ensures var out := RunView(env, lib, conf, v, a); Sound(Result(Some(out.report), out.err))
  {
    hide SuiteRun.RunSuite;
    hide Sound;
    hide SuiteDirOf;
    SuiteResultSound(env.(render := lib.render(v.templates)),
      SuiteRun.Conf(conf.ensureNamespace, conf.tags, map[TestAnnotation := v.name]), SuiteDirOf(lib, v), a);
  }

  lemma ResultsSnoc(rs: seq<Result>, r: Result)
    requires r.report.Some?
    ensures ReportsOf(rs + [r]) == ReportsOf(rs) + [r.report.value]
    ensures Join(ErrsOf(rs + [r])) == Join(ErrsOf(rs)) + r.err
  {
    assert (rs + [r])[..|rs|] == rs;
    var last := if r.err != {} then [r.err] else [];
    JoinAppend(ErrsOf(rs), last);
    assert Join(last) == r.err by { assert [r.err][1..] == []; }
  }

  lemma {:induction false} ViewResultsAre(env: Env, lib: Library, conf: RunConf, views: seq<SuiteView>, a: Api)
    ensures var rs := ViewResults(env, lib, conf, views, a);
            var out := RunViews(env, lib, conf, views, a);
            |rs| == |views| && AllSound(rs) && ReportsOf(rs) == out.tests && Join(ErrsOf(rs)) == out.err
  {
    hide RunView;
    hide Sound;
    hide Join;
    hide ReportsOf;
    hide ErrsOf;
    if views == [] {
      NoResults();
    } else {
      var init, v := views[..|views| - 1], views[|views| - 1];
      ViewResultsAre(env, lib, conf, init, a);
      var mid := RunViews(env, lib, conf, init, a).post;
      var out := RunView(env, lib, conf, v, mid);
      ViewSound(env, lib, conf, v, mid);
      ResultsSnoc(ViewResults(env, lib, conf, init, a), Result(Some(out.report), out.err));
    }
  }

  lemma NoResults()
    ensures ReportsOf([]) == [] && Join(ErrsOf([])) == {}
  {
  }

  // ---- the run ----

  /** A sequential run of a work directory is a complete schedule of the pool with a
      limit of one. Its report lists the suites' reports in discovery order, passed plus
      failed is the number of directories, and its error joins the suites' errors and is
      nil exactly when no suite is failed. */
  lemma WorkDirRunReported(env: Env, lib: Library, conf: RunConf, root: seq<Entry>, a: Api)
    requires Sorted(root)
    ensures var dirs := Discovered(Listing(root));
            var out := RunViews(env, lib, conf, Views(root), a);
            var rs := ViewResults(env, lib, conf, Views(root), a);
            var played := Play(1, dirs, InTurn(rs));
            && played.Some? && Complete(|dirs|, played.value.group)
            && RunReportOf(dirs, played.value) == Totalled(|dirs|, out.tests)
            && RunErrOf(dirs, played.value) == out.err
            && Accounts(Totalled(|dirs|, out.tests), out.err, rs)
  {
    var dirs := Discovered(Listing(root));
    var rs := ViewResults(env, lib, conf, Views(root), a);
    DiscoversViews(root);
    SortedNamesDistinct(root);
    ViewResultsAre(env, lib, conf, Views(root), a);
    hide Views;
    hide Discovered;
    hide RunViews;
    hide ViewResults;
    InTurnRuns(dirs, rs);
    ResultsAccounted(rs);
  }

  lemma InTurnRuns(dirs: seq<string>, rs: seq<Result>)
    requires DistinctDirs(dirs) && |rs| == |dirs|
    ensures var played := Play(1, dirs, InTurn(rs));
            && played.Some? && Complete(|dirs|, played.value.group)
            && RunReportOf(dirs, played.value) == Totalled(|dirs|, ReportsOf(rs))
            && RunErrOf(dirs, played.value) == Join(ErrsOf(rs))
  {
    InTurnPlays(1, dirs, rs);
    hide Play;
    hide RunReportOf;
    hide RunErrOf;
    hide Totalled;
    hide Join;
    var s := Play(1, dirs, InTurn(rs)).value;
    RunDependsOnResults(1, dirs, InTurn(rs));
    assert Results(s) == rs;
  }
}
