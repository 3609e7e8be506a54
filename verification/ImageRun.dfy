/** Running suites from a published image finds what a local run finds, and does
what a local run does. */
module ImageRun {

  import opened Errors
  import opened Objects
  import opened Paths
  import opened FileTree
  import opened TestImage
  import opened SuiteViews
  import opened Lifecycle
  import Reports
  import CaseTrace
  import SuiteRun

  // ---- pruning and the view ----

  lemma {:induction false} FindAbsent(entries: seq<Entry>, name: string)
    requires forall i :: 0 <= i < |entries| ==> entries[i].name != name
    ensures Find(entries, name).None?
  {
    if entries != [] {
      FindAbsent(entries[..|entries| - 1], name);
    }
  }

  /** A file named like one of the two subdirectories is dropped, a directory is pruned. */
  lemma {:induction false} FindPruned(entries: seq<Entry>, name: string)
    requires Sorted(entries) && name in {CasesName, TemplatesName}
    ensures Find(Pruned([], entries), name)
         == match Find(entries, name)
            case Some(Dir(inner)) => Some(Dir(Pruned([name], inner)))
            case _ => None
    decreases |entries|
  {
    if entries != [] {
      var init, last := entries[..|entries| - 1], entries[|entries| - 1];
      FindPruned(init, name);
      assert [] + [last.name] == [last.name];
      if Include([last.name], last.node) {
        var kept := Entry(last.name, PrunedNode([last.name], last.node));
        assert Pruned([], entries) == Pruned([], init) + [kept];
        assert (Pruned([], init) + [kept])[..|Pruned([], init)|] == Pruned([], init);
      } else if last.name == name {
        LessIrreflexive(name);
        FindAbsent(init, name);
      }
    }
  }

  /** No case file is lost, none is added, and the order stays. */
  lemma {:induction false} CasesSurvive(entries: seq<Entry>)
    ensures CaseEntries(Pruned([CasesName], entries)) == CaseEntries(entries)
    decreases |entries|
  {
    if entries != [] {
      var init, last := entries[..|entries| - 1], entries[|entries| - 1];
      CasesSurvive(init);
      assert [CasesName] + [last.name] == [CasesName, last.name];
      if Include([CasesName, last.name], last.node) {
        assert Pruned([CasesName], entries) == Pruned([CasesName], init) + [last];
        assert (Pruned([CasesName], init) + [last])[..|Pruned([CasesName], init)|] == Pruned([CasesName], init);
      } else if last.node.File? && IsCaseFile(last.name) {
        CaseFilesAreYaml(last.name);
        assert false;
      }
    }
  }

  predicate AllFiles(entries: seq<Entry>) {
    forall i :: 0 <= i < |entries| ==> entries[i].node.File?
  }

  /** Only the directories among the templates are lost. */
  lemma {:induction false} TemplatesSurvive(entries: seq<Entry>)
    ensures AllFiles(TemplateEntries(entries))
        ==> TemplateEntries(Pruned([TemplatesName], entries)) == TemplateEntries(entries)
    ensures |TemplateEntries(Pruned([TemplatesName], entries))| <= |TemplateEntries(entries)|
    ensures !AllFiles(TemplateEntries(entries)) ==>
      |TemplateEntries(Pruned([TemplatesName], entries))| < |TemplateEntries(entries)|
    decreases |entries|
  {
    if entries != [] {
      var init, last := entries[..|entries| - 1], entries[|entries| - 1];
      TemplatesSurvive(init);
      assert [TemplatesName] + [last.name] == [TemplatesName, last.name];
      var kept := Pruned([TemplatesName], init);
      assert (kept + [last])[..|kept|] == kept;
      TemplatesSnoc(init, last);
      if IsCaseFile(last.name) {
        CaseFilesAreYaml(last.name);
      }
      assert TemplateEntries(init) + [] == TemplateEntries(init)
        && TemplateEntries(kept) + [] == TemplateEntries(kept);
      assert Include([TemplatesName, last.name], last.node) <==> last.node.File? && IsYaml(last.name);
      assert Pruned([TemplatesName], entries) == kept + if last.node.File? && IsYaml(last.name) then [last] else [];
    }
  }

  lemma TemplatesSnoc(init: seq<Entry>, last: Entry)
    ensures AllFiles(TemplateEntries(init) + [last]) <==> AllFiles(TemplateEntries(init)) && last.node.File?
  {
    var all := TemplateEntries(init) + [last];
    assert all[|all| - 1] == last;
    assert forall i :: 0 <= i < |all| - 1 ==> all[i] == TemplateEntries(init)[i];
  }

  /** cases is a directory, and every template is a regular file. */
  predicate Portable(e: Entry)
    requires e.node.Dir?
  {
    !CasesOf(e.node.entries).NotADirectory? && AllFiles(TemplatesOf(e.node.entries))
  }

  /** A published suite is seen as it was exactly when it is portable: publishing
      silently drops a file named cases and a directory named like a template. */
  lemma SameViewIff(e: Entry)
    requires IsTestDir(e) && Sorted(e.node.entries)
    ensures View(PrunedSuite(e)) == View(e) <==> Portable(e)
  {
    hide CaseEntries;
    hide TemplateEntries;
    hide Pruned;
    hide Find;
    hide AllFiles;
    var suite := e.node.entries;
    FindPruned(suite, CasesName);
    FindPruned(suite, TemplatesName);
    match Find(suite, CasesName) {
      case Some(Dir(entries)) => CasesSurvive(entries);
      case _ =>
    }
    match Find(suite, TemplatesName) {
      case Some(Dir(entries)) => TemplatesSurvive(entries);
      case _ => NoTemplatesAllFiles();
    }
  }

  lemma NoTemplatesAllFiles()
    ensures AllFiles([])
  {
  }

  // ---- discovery ----

  function ViewsOf(dirs: seq<Entry>): seq<SuiteView>
    requires AllDirs(dirs)
  {
    seq(|dirs|, i requires 0 <= i < |dirs| => View(dirs[i]))
  }

  predicate AllDirs(dirs: seq<Entry>) {
    forall i :: 0 <= i < |dirs| ==> dirs[i].node.Dir?
  }

  predicate AllTestDirs(dirs: seq<Entry>) {
    forall i :: 0 <= i < |dirs| ==> IsTestDir(dirs[i])
  }

  lemma {:induction false} LocalSuitesWithCases(root: seq<Entry>)
    ensures AllTestDirs(TestDirs(root)) && AllDirs(TestDirs(root))
    ensures WithCases(Views(root)) == ViewsOf(TestDirs(root))
  {
    hide CasesOf;
    hide TemplatesOf;
    hide Hidden;
    if root != [] {
      var init, last := root[..|root| - 1], root[|root| - 1];
      LocalSuitesWithCases(init);
      if last.node.Dir? && !Hidden(last.name) {
        NoCasesIffNoneFound(last.node.entries);
        assert (Views(init) + [View(last)])[..|Views(init)|] == Views(init);
      }
      assert TestDirs(init) + [] == TestDirs(init) && Views(init) + [] == Views(init);
      assert WithCases(Views(init)) + [] == WithCases(Views(init));
      if IsTestDir(last) {
        assert ViewsOf(TestDirs(init) + [last]) == ViewsOf(TestDirs(init)) + [View(last)];
      }
    }
  }

  lemma NoCasesIffNoneFound(suite: seq<Entry>)
    ensures CasesOf(suite).NoCases? <==> Find(suite, CasesName).None?
  {
  }

  /** Every suite of the extracted image is discovered. */
  lemma {:induction false} AllDiscovered(dirs: seq<Entry>)
    requires forall i :: 0 <= i < |dirs| ==> dirs[i].node.Dir? && !Hidden(dirs[i].name)
    ensures AllDirs(dirs) && Views(dirs) == ViewsOf(dirs)
  {
    hide View;
    if dirs != [] {
      AllDiscovered(dirs[..|dirs| - 1]);
    }
  }

  predicate AllPortable(dirs: seq<Entry>)
    requires AllDirs(dirs)
  {
    forall i :: 0 <= i < |dirs| ==> Portable(dirs[i])
  }

  lemma SuiteSorted(e: Entry)
    requires e.node.Dir? && ProperNode(e.node)
    ensures Sorted(e.node.entries)
  {
  }

  lemma SameViewsIff(dirs: seq<Entry>)
    requires AllTestDirs(dirs) && AllDirs(dirs) && Proper(dirs)
    ensures AllDirs(PrunedSuites(dirs))
    ensures ViewsOf(PrunedSuites(dirs)) == ViewsOf(dirs) <==> AllPortable(dirs)
  {
    hide Portable;
    hide View;
    hide IsTestDir;
    var pruned := PrunedSuites(dirs);
    assert AllDirs(pruned);
    forall i | 0 <= i < |dirs|
      ensures ViewsOf(pruned)[i] == ViewsOf(dirs)[i] <==> Portable(dirs[i])
    {
      assert IsTestDir(dirs[i]) && ProperNode(dirs[i].node);
      SuiteSorted(dirs[i]);
      SameViewIff(dirs[i]);
    }
    assert |ViewsOf(pruned)| == |ViewsOf(dirs)|;
    if ViewsOf(pruned) == ViewsOf(dirs) {
      assert forall i :: 0 <= i < |dirs| ==> ViewsOf(pruned)[i] == ViewsOf(dirs)[i];
    } else {
      var i :| 0 <= i < |dirs| && ViewsOf(pruned)[i] != ViewsOf(dirs)[i];
      assert !Portable(dirs[i]);
    }
  }

  /** What a run of the published and extracted image discovers, if it comes to that. */
  function ImageViews(root: seq<Entry>): Option<seq<SuiteView>> {
    match Published(root)
    case None => None
    case Some(layer) =>
      match Extracted([], layer)
      case None => None
      case Some(tree) => Some(Views(tree))
  }

  /** Publish, extract, discover: there is an image exactly when there is a test
      directory, and it holds exactly the suites that have cases, each with the case
      files and templates a local run reads, in the same order, if and only if every
      one of them is portable. */
  lemma PublishRoundTrip(root: seq<Entry>)
    requires Proper(root)
    ensures AllDirs(TestDirs(root))
    ensures ImageViews(root).Some? <==> TestDirs(root) != []
    ensures ImageViews(root) == Some(WithCases(Views(root))) <==> TestDirs(root) != [] && AllPortable(TestDirs(root))
  {
    ExtractPublished(root);
    LocalSuitesWithCases(root);
    TestDirsFrom(root);
    var dirs := TestDirs(root);
    SameViewsIff(dirs);
    hide *;
    assert forall i :: 0 <= i < |dirs| ==> PrunedSuites(dirs)[i].node.Dir? && !Hidden(PrunedSuites(dirs)[i].name) by {
      SuitesVisible(dirs);
    }
    AllDiscovered(PrunedSuites(dirs));
    ImageViewsAre(root, PrunedSuites(dirs));
  }

  lemma ImageViewsAre(root: seq<Entry>, tree: seq<Entry>)
    requires Extracted([], Layer(TestDirs(root))) == Some(tree)
    ensures ImageViews(root) == if TestDirs(root) == [] then None else Some(Views(tree))
  {
  }

  lemma SuitesVisible(dirs: seq<Entry>)
    requires AllTestDirs(dirs)
    ensures forall i :: 0 <= i < |dirs| ==> PrunedSuites(dirs)[i].node.Dir? && !Hidden(PrunedSuites(dirs)[i].name)
  {
    forall i | 0 <= i < |dirs| ensures PrunedSuites(dirs)[i].node.Dir? && !Hidden(PrunedSuites(dirs)[i].name) {
      assert IsTestDir(dirs[i]);
    }
  }

  /** A suite whose cases is a regular file fails locally and comes out of the image
      as a suite without cases. */
  lemma CasesFileChangesSuite(name: string, content: string)
    requires !Hidden(name)
    ensures var e := Entry(name, Dir([Entry(CasesName, File(content))]));
            && IsTestDir(e) && View(e).cases.NotADirectory? && View(PrunedSuite(e)).cases.NoCases?
  {
    var suite := [Entry(CasesName, File(content))];
    assert Find(suite, CasesName) == Some(File(content));
    FindPruned(suite, CasesName);
  }

  // ---- running what was discovered ----

  /** Reading files: deterministic, and rendering depends on the suite's templates. */
  datatype Library = Library(
    parse: string -> Option<CaseTrace.Case>,
    loads: seq<Entry> -> bool,
    render: seq<Entry> -> ((string, string, Values) -> Option<Obj>))

  function ParsedFiles(lib: Library, files: seq<Entry>): seq<SuiteRun.CaseFile> {
    seq(|files|, i requires 0 <= i < |files| =>
      SuiteRun.CaseFile(files[i].name, false, if files[i].node.File? then lib.parse(files[i].node.content) else None))
  }

  function SuiteDirOf(lib: Library, v: SuiteView): SuiteRun.SuiteDir {
    SuiteRun.SuiteDir(v.name, lib.loads(v.templates), match v.cases
      case NoCases => SuiteRun.Missing
      case NotADirectory => SuiteRun.Unreadable
      case CaseList(files) => SuiteRun.Listing(ParsedFiles(lib, files)))
  }

  const TestAnnotation := "testing.kube2e.io/test"

  datatype RunConf = RunConf(ensureNamespace: bool, tags: seq<string>)

  function RunView(env: Env, lib: Library, conf: RunConf, v: SuiteView, a: Api): SuiteRun.SuiteOutcome {
    SuiteRun.RunSuite(env.(render := lib.render(v.templates)),
      SuiteRun.Conf(conf.ensureNamespace, conf.tags, map[TestAnnotation := v.name]), SuiteDirOf(lib, v), a)
  }

  datatype RunOutcome = RunOutcome(post: Api, tests: seq<Reports.SuiteReport>, err: Err)

  /** The suites one after the other. */
  function RunViews(env: Env, lib: Library, conf: RunConf, views: seq<SuiteView>, a: Api): RunOutcome {
    if views == [] then RunOutcome(a, [], {})
    else
      var before := RunViews(env, lib, conf, views[..|views| - 1], a);
      var out := RunView(env, lib, conf, views[|views| - 1], before.post);
      RunOutcome(out.post, before.tests + [out.report], before.err + out.err)
  }

  /** The reports of the suites that have cases. */
  function TestsWithCases(views: seq<SuiteView>, tests: seq<Reports.SuiteReport>): seq<Reports.SuiteReport>
    requires |views| == |tests|
  {
    if views == [] then []
    else
      var k := |views| - 1;
      TestsWithCases(views[..k], tests[..k]) + if views[k].cases.NoCases? then [] else [tests[k]]
  }

  predicate EmptySuitesLoad(lib: Library, views: seq<SuiteView>) {
    forall i :: 0 <= i < |views| && views[i].cases.NoCases? ==> lib.loads(views[i].templates)
  }

  /** What the suites without cases add to the run error. */
  function EmptySuitesErr(lib: Library, views: seq<SuiteView>): Err {
    if EmptySuitesLoad(lib, views) then {} else {NotLoaded}
  }

  lemma EmptySuiteDoesNothing(env: Env, lib: Library, conf: RunConf, v: SuiteView, a: Api)
    requires v.cases.NoCases?
    ensures var out := RunView(env, lib, conf, v, a);
            out.post == a && out.report.cases == [] && out.err == if lib.loads(v.templates) then {} else {NotLoaded}
  {
  }

  lemma EmptySuitesErrGrows(lib: Library, views: seq<SuiteView>, v: SuiteView)
    ensures EmptySuitesErr(lib, views + [v])
         == EmptySuitesErr(lib, views) + if v.cases.NoCases? && !lib.loads(v.templates) then {NotLoaded} else {}
  {
    var all := views + [v];
    assert all[|views|] == v && forall i :: 0 <= i < |views| ==> all[i] == views[i];
  }

  lemma TestsWithCasesSnoc(
    views: seq<SuiteView>, v: SuiteView, tests: seq<Reports.SuiteReport>, t: Reports.SuiteReport)
    requires |views| == |tests|
    ensures TestsWithCases(views + [v], tests + [t])
         == if v.cases.NoCases? then TestsWithCases(views, tests) else TestsWithCases(views, tests) + [t]
  {
    var k := |views|;
    assert (views + [v])[..k] == views && (tests + [t])[..k] == tests;
  }

  lemma RunViewsSnoc(env: Env, lib: Library, conf: RunConf, views: seq<SuiteView>, v: SuiteView, a: Api)
    ensures var before := RunViews(env, lib, conf, views, a);
            var out := RunView(env, lib, conf, v, before.post);
            RunViews(env, lib, conf, views + [v], a)
            == RunOutcome(out.post, before.tests + [out.report], before.err + out.err)
  {
    hide RunView;
    assert (views + [v])[..|views|] == views;
  }

  lemma WithCasesSnoc(views: seq<SuiteView>, v: SuiteView)
    ensures WithCases(views + [v]) == if v.cases.NoCases? then WithCases(views) else WithCases(views) + [v]
  {
    assert (views + [v])[..|views|] == views;
  }

  lemma OnlyCasesRunStep(env: Env, lib: Library, conf: RunConf, init: seq<SuiteView>, v: SuiteView, a: Api)
    requires var all, some := RunViews(env, lib, conf, init, a), RunViews(env, lib, conf, WithCases(init), a);
             |all.tests| == |init| && some.post == all.post && some.tests == TestsWithCases(init, all.tests)
    ensures var views := init + [v];
            var all, some := RunViews(env, lib, conf, views, a), RunViews(env, lib, conf, WithCases(views), a);
            |all.tests| == |views| && some.post == all.post && some.tests == TestsWithCases(views, all.tests)
  {
    hide *;
    var before := RunViews(env, lib, conf, init, a);
    RunViewsSnoc(env, lib, conf, init, v, a);
    WithCasesSnoc(init, v);
    TestsWithCasesSnoc(init, v, before.tests, RunView(env, lib, conf, v, before.post).report);
    if v.cases.NoCases? {
      EmptySuiteDoesNothing(env, lib, conf, v, before.post);
    } else {
      RunViewsSnoc(env, lib, conf, WithCases(init), v, a);
    }
  }

  /** Suites without cases leave the cluster alone. */
  lemma {:induction false} OnlyCasesRun(env: Env, lib: Library, conf: RunConf, views: seq<SuiteView>, a: Api)
    ensures var all, some := RunViews(env, lib, conf, views, a), RunViews(env, lib, conf, WithCases(views), a);
            |all.tests| == |views| && some.post == all.post && some.tests == TestsWithCases(views, all.tests)
    decreases |views|
  {
    hide *;
    if views == [] {
      NoSuitesRun(env, lib, conf, a);
    } else {
      var init, v := views[..|views| - 1], views[|views| - 1];
      OnlyCasesRun(env, lib, conf, init, a);
      OnlyCasesRunStep(env, lib, conf, init, v, a);
      assert views == init + [v];
    }
  }

  lemma OnlyCasesErrStep(env: Env, lib: Library, conf: RunConf, init: seq<SuiteView>, v: SuiteView, a: Api)
    requires var all, some := RunViews(env, lib, conf, init, a), RunViews(env, lib, conf, WithCases(init), a);
             some.post == all.post && all.err == some.err + EmptySuitesErr(lib, init)
    ensures var views := init + [v];
            RunViews(env, lib, conf, views, a).err
            == RunViews(env, lib, conf, WithCases(views), a).err + EmptySuitesErr(lib, views)
  {
    hide *;
    var before := RunViews(env, lib, conf, init, a);
    RunViewsSnoc(env, lib, conf, init, v, a);
    EmptySuitesErrGrows(lib, init, v);
    WithCasesSnoc(init, v);
    if v.cases.NoCases? {
      EmptySuiteDoesNothing(env, lib, conf, v, before.post);
    } else {
      RunViewsSnoc(env, lib, conf, WithCases(init), v, a);
    }
  }

  /** And they fail only by not loading. */
  lemma {:induction false} OnlyCasesErr(env: Env, lib: Library, conf: RunConf, views: seq<SuiteView>, a: Api)
    ensures RunViews(env, lib, conf, views, a).err
         == RunViews(env, lib, conf, WithCases(views), a).err + EmptySuitesErr(lib, views)
    decreases |views|
  {
    hide *;
    if views == [] {
      NoSuitesRun(env, lib, conf, a);
    } else {
      var init, v := views[..|views| - 1], views[|views| - 1];
      OnlyCasesRun(env, lib, conf, init, a);
      OnlyCasesErr(env, lib, conf, init, a);
      OnlyCasesErrStep(env, lib, conf, init, v, a);
      assert views == init + [v];
    }
  }

  lemma NoSuitesRun(env: Env, lib: Library, conf: RunConf, a: Api)
    ensures RunViews(env, lib, conf, [], a) == RunOutcome(a, [], {}) && EmptySuitesErr(lib, []) == {}
    ensures WithCases([]) == [] && TestsWithCases([], []) == []
  {
    hide RunView;
  }

  /** Running the image does to the cluster what the local run does and gives the local
      reports of the suites that have cases; the local error is the image's error, plus
      the loading error of suites that have no cases and so are not in the image. */
  lemma ImageRunsLikeLocal(env: Env, lib: Library, conf: RunConf, root: seq<Entry>, a: Api)
    requires Proper(root) && TestDirs(root) != [] && AllDirs(TestDirs(root)) && AllPortable(TestDirs(root))
    ensures ImageViews(root).Some?
    ensures var local := RunViews(env, lib, conf, Views(root), a);
            var remote := RunViews(env, lib, conf, ImageViews(root).value, a);
            && |local.tests| == |Views(root)|
            && remote.post == local.post
            && remote.tests == TestsWithCases(Views(root), local.tests)
            && local.err == remote.err + EmptySuitesErr(lib, Views(root))
  {
    hide *;
    PublishRoundTrip(root);
    OnlyCasesRun(env, lib, conf, Views(root), a);
    OnlyCasesErr(env, lib, conf, Views(root), a);
  }

  /** A directory with one template and no cases. */
  function BrokenDir(template: Entry): Entry {
    Entry("a", Dir([Entry(TemplatesName, Dir([template]))]))
  }

  /** A directory with an empty cases directory. */
  function EmptyDir(): Entry {
    Entry("b", Dir([Entry(CasesName, Dir([]))]))
  }

  /** A portable suite and a directory without cases whose template does not load: the
      local run returns the loading error, the image does not know the directory. */
  lemma BrokenEmptySuiteFailsLocally(env: Env, lib: Library, conf: RunConf, template: Entry, a: Api)
    requires template.node.File? && IsCaseFile(template.name) && !Whiteout(template.name)
    requires !lib.loads([template]) && lib.loads([])
    ensures var root := [BrokenDir(template), EmptyDir()];
            && Proper(root) && ImageViews(root).Some?
            && NotLoaded in RunViews(env, lib, conf, Views(root), a).err
            && RunViews(env, lib, conf, ImageViews(root).value, a).err == {}
  {
    var root := [BrokenDir(template), EmptyDir()];
    var v, u := SuiteView("a", NoCases, [template]), SuiteView("b", CaseList([]), []);
    BrokenRootProper(template);
    BrokenRootViews(template);
    hide *;
    PublishRoundTrip(root);
    OnlyCasesErr(env, lib, conf, [v, u], a);
    BrokenEmptyErr(lib, v, u);
    OneEmptySuiteRuns(env, lib, conf, u, a);
  }

  lemma BrokenEmptyErr(lib: Library, v: SuiteView, u: SuiteView)
    requires v.cases.NoCases? && !lib.loads(v.templates) && !u.cases.NoCases?
    ensures EmptySuitesErr(lib, [v, u]) == {NotLoaded} && WithCases([v, u]) == [u]
  {
    assert [v, u][0] == v && [v, u][..1] == [v] && [v][..0] == [];
    assert WithCases([v]) == [];
  }

  lemma OneEmptySuiteRuns(env: Env, lib: Library, conf: RunConf, u: SuiteView, a: Api)
    requires u.cases == CaseList([]) && lib.loads(u.templates)
    ensures RunViews(env, lib, conf, [u], a).err == {}
  {
    assert SuiteDirOf(lib, u).cases == SuiteRun.Listing([]);
    assert SuiteRun.CaseFiles([]) == [];
    assert [u][..0] == [];
    assert RunView(env, lib, conf, u, a).err == {};
    hide RunView;
  }

  lemma PlainNameIsNoWhiteout(name: string)
    requires name != "" && name[0] != '.'
    ensures !Whiteout(name)
  {
    assert WhiteoutPrefix[0] == '.';
  }

  lemma SingleProper(e: Entry)
    requires !Whiteout(e.name) && ProperNode(e.node)
    ensures Proper([e])
  {
  }

  lemma BrokenRootProper(template: Entry)
    requires template.node.File? && !Whiteout(template.name)
    ensures Proper([BrokenDir(template), EmptyDir()])
  {
    PlainNameIsNoWhiteout("a");
    PlainNameIsNoWhiteout("b");
    PlainNameIsNoWhiteout(CasesName);
    PlainNameIsNoWhiteout(TemplatesName);
    SingleProper(template);
    SingleProper(Entry(TemplatesName, Dir([template])));
    SingleProper(Entry(CasesName, Dir([])));
    SingleProper(BrokenDir(template));
    assert Less("a", "b");
    ProperSnoc([BrokenDir(template)], EmptyDir());
    assert [BrokenDir(template)] + [EmptyDir()] == [BrokenDir(template), EmptyDir()];
  }

  lemma BrokenRootViews(template: Entry)
    requires template.node.File? && IsCaseFile(template.name)
    ensures var root := [BrokenDir(template), EmptyDir()];
            && TestDirs(root) == [EmptyDir()] && AllDirs(TestDirs(root)) && AllPortable(TestDirs(root))
            && Views(root) == [SuiteView("a", NoCases, [template]), SuiteView("b", CaseList([]), [])]
  {
    var broken, empty := BrokenDir(template), EmptyDir();
    OneTemplateView(template);
    NoCaseFilesView();
    hide CasesOf;
    hide TemplatesOf;
    hide Find;
    var root := [broken, empty];
    assert root[..1] == [broken];
    OneVisibleDir(broken);
  }

  lemma OneVisibleDir(e: Entry)
    requires e.node.Dir? && !Hidden(e.name) && Find(e.node.entries, CasesName).None?
    ensures TestDirs([e]) == [] && Views([e]) == [View(e)]
  {
    hide View;
    hide Find;
    assert [e][..0] == [];
  }

  lemma OneTemplateView(template: Entry)
    requires template.node.File? && IsCaseFile(template.name)
    ensures View(BrokenDir(template)) == SuiteView("a", NoCases, [template])
    ensures Find(BrokenDir(template).node.entries, CasesName).None?
  {
    var suite := BrokenDir(template).node.entries;
    assert suite[..0] == [] && Find([], CasesName).None? && [template][..0] == [];
    assert TemplateEntries([template]) == [template];
  }

  lemma NoCaseFilesView()
    ensures View(EmptyDir()) == SuiteView("b", CaseList([]), [])
    ensures Find(EmptyDir().node.entries, CasesName).Some? && Portable(EmptyDir())
  {
    var suite := EmptyDir().node.entries;
    assert suite[..0] == [] && Find([], TemplatesName).None?;
    assert CasesOf(suite) == CaseList([]) && TemplatesOf(suite) == [];
  }
}
