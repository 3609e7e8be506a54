/** Schema errors flattened into problems, and the validation report of a directory.
Decoding a document and checking it against the schema are parameters. */
module Validation {

  import opened Objects
  import opened Paths
  import opened FileTree
  import opened SuiteViews
  import opened Pointers

  /** A node of a schema error: where, what, and the failures behind it. */
  datatype Violation = Violation(location: seq<string>, message: string, causes: seq<Violation>)

  datatype Problem = Problem(pointer: string, message: string)

  // ---- flattening ----

  /** A cause that validates another instance than the node itself. */
  predicate ReRoots(v: Violation) {
    exists i :: 0 <= i < |v.causes| && |v.causes[i].location| < |v.location|
  }

  method FindReRoot(v: Violation) returns (found: bool)
    ensures found == ReRoots(v)
    ensures found <==> exists i :: 0 <= i < |v.causes| && |v.causes[i].location| < |v.location|
  {
    for n := 0 to |v.causes|
      invariant forall i :: 0 <= i < n ==> |v.causes[i].location| >= |v.location|
    {
      if |v.causes[n].location| < |v.location| {
        return true;
      }
    }
    return false;
  }

  /** The list of pruned leaves. */
  function Leaves(v: Violation, inherited: string): (r: seq<Problem>)
    ensures r != []
    decreases v, 0
  {
    if ReRoots(v) then [Problem(inherited, v.message)]
    else if v.causes == [] then [Problem(Pointer(v.location), v.message)]
    else LeavesOfAll(v.causes, Pointer(v.location))
  }

  function LeavesOfAll(vs: seq<Violation>, inherited: string): (r: seq<Problem>)
    ensures vs != [] ==> r != []
    decreases vs
  {
    if vs == [] then []
    else LeavesOfAll(vs[..|vs| - 1], inherited) + Leaves(vs[|vs| - 1], inherited)
  }

  /** collect: the accumulator, then the pruned leaves. */
  method Collect(v: Violation, inherited: string, into: seq<Problem>) returns (out: seq<Problem>)
    ensures out == into + Leaves(v, inherited)
    decreases v
  {
    hide ReRoots;
    hide Pointer;
    var reRoots := FindReRoot(v);
    if reRoots {
      return into + [Problem(inherited, v.message)];
    }
    var location := Print(v.location);
    if |v.causes| == 0 {
      return into + [Problem(location, v.message)];
    }
    out := into;
    hide Leaves;
    for n := 0 to |v.causes|
      invariant out == into + LeavesOfAll(v.causes[..n], location)
    {
      LeavesOfOneMore(v.causes, n, location);
      var next := Collect(v.causes[n], location, out);
      out := next;
    }
    assert v.causes[..|v.causes|] == v.causes;
  }

  lemma LeavesOfOneMore(vs: seq<Violation>, n: nat, inherited: string)
    requires n < |vs|
    ensures LeavesOfAll(vs[..n + 1], inherited) == LeavesOfAll(vs[..n], inherited) + Leaves(vs[n], inherited)
  {
    assert vs[..n + 1][..n] == vs[..n];
  }

  // ---- which nodes are reported ----

  /** The node reached by following causes. */
  function Reach(v: Violation, path: seq<nat>): Option<Violation>
    decreases |path|
  {
    if path == [] then Some(v)
    else if path[0] < |v.causes| then Reach(v.causes[path[0]], path[1..])
    else None
  }

  /** The node ends its branch: it re-roots or has no causes, and nothing above it does. */
  predicate Tip(v: Violation, path: seq<nat>)
    decreases |path|
  {
    if path == [] then ReRoots(v) || v.causes == []
    else !ReRoots(v) && path[0] < |v.causes| && Tip(v.causes[path[0]], path[1..])
  }

  /** The pointer of the parent of the reached node, or the inherited one at the top. */
  function ParentPointer(v: Violation, path: seq<nat>, inherited: string): string
    decreases |path|
  {
    if path == [] then inherited
    else if path[0] < |v.causes| then ParentPointer(v.causes[path[0]], path[1..], Pointer(v.location))
    else inherited
  }

  /** What is reported for the node at a path: its message, at its own location or,
      where that has gone stale, at its parent's. */
  ghost predicate ReportedAt(v: Violation, path: seq<nat>, inherited: string, p: Problem) {
    && Tip(v, path)
    && Reach(v, path).Some?
    && var tip := Reach(v, path).value;
       p == Problem(if ReRoots(tip) then ParentPointer(v, path, inherited) else Pointer(tip.location), tip.message)
  }

  lemma {:induction false} LeavesOfAllFrom(vs: seq<Violation>, inherited: string, p: Problem)
    ensures p in LeavesOfAll(vs, inherited) <==> exists i :: 0 <= i < |vs| && p in Leaves(vs[i], inherited)
    decreases |vs|
  {
    hide Leaves;
    if vs != [] {
      var k := |vs| - 1;
      LeavesOfAllFrom(vs[..k], inherited, p);
      assert forall i :: 0 <= i < k ==> vs[..k][i] == vs[i];
    }
  }

  lemma ReportedBelow(v: Violation, i: nat, below: seq<nat>, inherited: string, p: Problem)
    requires !ReRoots(v) && i < |v.causes|
    ensures ReportedAt(v, [i] + below, inherited, p) <==> ReportedAt(v.causes[i], below, Pointer(v.location), p)
  {
    hide ReRoots;
    hide Pointer;
    assert ([i] + below)[1..] == below;
  }

  lemma {:induction false} ReportedHasPath(v: Violation, inherited: string, p: Problem) returns (path: seq<nat>)
    requires p in Leaves(v, inherited)
    ensures ReportedAt(v, path, inherited, p)
    decreases v
  {
    path := [];
    if !ReRoots(v) && v.causes != [] {
      LeavesOfAllFrom(v.causes, Pointer(v.location), p);
      var i: nat :| i < |v.causes| && p in Leaves(v.causes[i], Pointer(v.location));
      var below := ReportedHasPath(v.causes[i], Pointer(v.location), p);
      ReportedBelow(v, i, below, inherited, p);
      path := [i] + below;
    }
  }

  lemma {:induction false} PathIsReported(v: Violation, path: seq<nat>, inherited: string, p: Problem)
    requires ReportedAt(v, path, inherited, p)
    ensures p in Leaves(v, inherited)
    decreases |path|
  {
    hide Pointer;
    hide LeavesOfAll;
    if path != [] {
      var i, below := path[0], path[1..];
      assert path == [i] + below;
      ReportedBelow(v, i, below, inherited, p);
      PathIsReported(v.causes[i], below, Pointer(v.location), p);
      LeavesOfAllFrom(v.causes, Pointer(v.location), p);
    }
  }

  /** A problem is reported exactly for the nodes that end their branch. */
  lemma ReportedIff(v: Violation, inherited: string, p: Problem)
    ensures p in Leaves(v, inherited) <==> exists path :: ReportedAt(v, path, inherited, p)
  {
    if p in Leaves(v, inherited) {
      var path := ReportedHasPath(v, inherited, p);
    }
    if exists path :: ReportedAt(v, path, inherited, p) {
      var path :| ReportedAt(v, path, inherited, p);
      PathIsReported(v, path, inherited, p);
    }
  }

  // ---- one file ----

  /** What reading, decoding and the schema say about a case file. */
  datatype Judgement =
    | NotReadable
    | NotDecodable(message: string)
    | Accepted
    | Violated(violation: Violation)
    | Broken(message: string)

  function Problems(j: Judgement): seq<Problem> {
    match j
    case NotDecodable(m) => [Problem(RootPointer, m)]
    case Violated(v) => Leaves(v, RootPointer)
    case Broken(m) => [Problem(RootPointer, m)]
    case _ => []
  }

  datatype CaseReport = CaseReport(name: string, problems: seq<Problem>)

  datatype SuiteReport = SuiteReport(name: string, cases: seq<CaseReport>)

  predicate Clean(c: CaseReport) {
    |c.problems| == 0
  }

  /** The error covers only reading the file; a readable case is clean exactly when
      it decodes and the schema accepts it. */
  method CheckFile(name: string, j: Judgement) returns (ok: bool, report: CaseReport)
    ensures ok <==> !j.NotReadable?
    ensures report == CaseReport(name, Problems(j))
    ensures ok ==> (Clean(report) <==> j.Accepted?)
    ensures j.NotDecodable? ==> report.problems == [Problem("/", j.message)]
    ensures j.Broken? ==> report.problems == [Problem("/", j.message)]
    ensures j.Violated? ==> report.problems == Leaves(j.violation, "/")
  {
    report := CaseReport(name, []);
    match j
    case NotReadable => return false, report;
    case NotDecodable(m) => return true, report.(problems := [Problem(RootPointer, m)]);
    case Accepted => return true, report;
    case Broken(m) => return true, report.(problems := [Problem(RootPointer, m)]);
    case Violated(v) =>
      var problems := Collect(v, RootPointer, []);
      return true, report.(problems := problems);
  }

  // ---- suites ----

  type Oracle = (string, Entry) -> Judgement

  /** The suites to check: the directory itself if it holds cases, else its children. */
  function SuiteDirs(name: string, root: seq<Entry>): seq<SuiteView> {
    if CasesOf(root).CaseList? then [View(Entry(name, Dir(root)))] else Checkable(Views(root))
  }

  function Checkable(views: seq<SuiteView>): seq<SuiteView> {
    if views == [] then []
    else
      var last := views[|views| - 1];
      Checkable(views[..|views| - 1]) + if last.cases.CaseList? then [last] else []
  }

  predicate AllReadable(oracle: Oracle, name: string, files: seq<Entry>) {
    forall i :: 0 <= i < |files| ==> !oracle(name, files[i]).NotReadable?
  }

  function CheckedFiles(oracle: Oracle, name: string, files: seq<Entry>): seq<CaseReport> {
    seq(|files|, i requires 0 <= i < |files| => CaseReport(files[i].name, Problems(oracle(name, files[i]))))
  }

  method CheckSuite(oracle: Oracle, name: string, files: seq<Entry>) returns (ok: bool, report: SuiteReport)
    ensures ok <==> AllReadable(oracle, name, files)
    ensures ok ==> report == SuiteReport(name, CheckedFiles(oracle, name, files))
  {
    hide Problems;
    report := SuiteReport(name, []);
    for n := 0 to |files|
      invariant report == SuiteReport(name, CheckedFiles(oracle, name, files[..n]))
      invariant AllReadable(oracle, name, files[..n])
    {
      var readable, c := CheckFile(files[n].name, oracle(name, files[n]));
      if !readable {
        return false, report;
      }
      report := report.(cases := report.cases + [c]);
      assert files[..n + 1] == files[..n] + [files[n]];
    }
    assert files[..|files|] == files;
    return true, report;
  }

  function FilesOf(v: SuiteView): seq<Entry> {
    if v.cases.CaseList? then v.cases.files else []
  }

  ghost predicate SuitesReadable(oracle: Oracle, views: seq<SuiteView>) {
    forall i :: 0 <= i < |views| ==> AllReadable(oracle, views[i].name, FilesOf(views[i]))
  }

  function SuiteReports(oracle: Oracle, views: seq<SuiteView>): seq<SuiteReport> {
    seq(|views|, i requires 0 <= i < |views| =>
      SuiteReport(views[i].name, CheckedFiles(oracle, views[i].name, FilesOf(views[i]))))
  }

  /** Dir: nothing when there is no suite or a case file cannot be read, otherwise
      one report per suite and case file, in discovery order. */
  method CheckDir(oracle: Oracle, name: string, root: seq<Entry>) returns (result: Option<seq<SuiteReport>>)
    ensures result.Some? <==> SuiteDirs(name, root) != [] && SuitesReadable(oracle, SuiteDirs(name, root))
    ensures result.Some? ==> result.value == SuiteReports(oracle, SuiteDirs(name, root))
  {
    hide CheckedFiles;
    hide SuiteDirs;
    hide AllReadable;
    var views := SuiteDirs(name, root);
    if |views| == 0 {
      return None;
    }
    var reports: seq<SuiteReport> := [];
    for n := 0 to |views|
      invariant reports == SuiteReports(oracle, views[..n]) && SuitesReadable(oracle, views[..n])
    {
      var ok, report := CheckSuite(oracle, views[n].name, FilesOf(views[n]));
      if !ok {
        return None;
      }
      reports := reports + [report];
      assert views[..n + 1] == views[..n] + [views[n]];
    }
    assert views[..|views|] == views;
    return Some(reports);
  }

  // ---- totals ----

  function CasesIn(suites: seq<SuiteReport>): seq<CaseReport> {
    if suites == [] then [] else CasesIn(suites[..|suites| - 1]) + suites[|suites| - 1].cases
  }

  function Invalid(cases: seq<CaseReport>): (n: nat)
    ensures n <= |cases|
    ensures n == 0 <==> forall i :: 0 <= i < |cases| ==> Clean(cases[i])
  {
    if cases == [] then 0
    else
      var k := |cases| - 1;
      assert forall i :: 0 <= i < |cases| ==> cases[i] == if i < k then cases[..k][i] else cases[k];
      Invalid(cases[..k]) + if Clean(cases[k]) then 0 else 1
  }

  lemma InvalidSnoc(cases: seq<CaseReport>, c: CaseReport)
    ensures Invalid(cases + [c]) == Invalid(cases) + if Clean(c) then 0 else 1
  {
    assert (cases + [c])[..|cases|] == cases;
  }

  method Totals(suites: seq<SuiteReport>) returns (total: nat, invalid: nat)
    ensures total == |CasesIn(suites)| && invalid == Invalid(CasesIn(suites))
  {
    hide Invalid;
    hide Clean;
    total, invalid := 0, Invalid([]);
    NoneInvalid();
    for n := 0 to |suites|
      invariant total == |CasesIn(suites[..n])| && invalid == Invalid(CasesIn(suites[..n]))
    {
      ghost var before := CasesIn(suites[..n]);
      var cases := suites[n].cases;
      assert before + cases[..0] == before;
      for m := 0 to |cases|
        invariant total == |before| + m && invalid == Invalid(before + cases[..m])
      {
        assert before + cases[..m + 1] == before + cases[..m] + [cases[m]];
        InvalidSnoc(before + cases[..m], cases[m]);
        total := total + 1;
        if !Clean(cases[m]) {
          invalid := invalid + 1;
        }
      }
      assert cases[..|cases|] == cases;
      assert suites[..n + 1][..n] == suites[..n];
    }
    assert suites[..|suites|] == suites;
  }

  lemma NoneInvalid()
    ensures Invalid([]) == 0
  {
  }

  method Valid(suites: seq<SuiteReport>) returns (valid: bool)
    ensures valid <==> forall i, j :: 0 <= i < |suites| && 0 <= j < |suites[i].cases| ==> Clean(suites[i].cases[j])
  {
    var total, invalid := Totals(suites);
    NoneInvalidIff(suites);
    return invalid == 0;
  }

  lemma NoneInvalidIff(suites: seq<SuiteReport>)
    ensures Invalid(CasesIn(suites)) == 0
       <==> forall i, j :: 0 <= i < |suites| && 0 <= j < |suites[i].cases| ==> Clean(suites[i].cases[j])
  {
    var all := CasesIn(suites);
    CasesInAll(suites);
    hide CasesIn;
    if Invalid(all) == 0 {
      forall i, j | 0 <= i < |suites| && 0 <= j < |suites[i].cases| ensures Clean(suites[i].cases[j]) {
        assert suites[i].cases[j] in suites[i].cases;
        assert suites[i].cases[j] in all;
      }
    } else {
      var k :| 0 <= k < |all| && !Clean(all[k]);
      assert all[k] in all;
      var i :| 0 <= i < |suites| && all[k] in suites[i].cases;
      var j :| 0 <= j < |suites[i].cases| && suites[i].cases[j] == all[k];
    }
  }

  lemma {:induction false} CasesInAll(suites: seq<SuiteReport>)
    ensures forall c :: c in CasesIn(suites) <==> exists i :: 0 <= i < |suites| && c in suites[i].cases
  {
    if suites != [] {
      var k := |suites| - 1;
      CasesInAll(suites[..k]);
      assert forall i :: 0 <= i < k ==> suites[..k][i] == suites[i];
    }
  }

  /** A directory is reported valid exactly when the schema accepts every case file of
      every suite found in it. */
  lemma ValidIffAccepted(oracle: Oracle, views: seq<SuiteView>)
    requires SuitesReadable(oracle, views)
    ensures var suites := SuiteReports(oracle, views);
            (forall i, j :: 0 <= i < |suites| && 0 <= j < |suites[i].cases| ==> Clean(suites[i].cases[j]))
            <==> forall i, j :: 0 <= i < |views| && 0 <= j < |FilesOf(views[i])| ==>
                   oracle(views[i].name, FilesOf(views[i])[j]).Accepted?
  {
    var suites := SuiteReports(oracle, views);
    forall i, j | 0 <= i < |views| && 0 <= j < |FilesOf(views[i])|
      ensures |suites[i].cases| == |FilesOf(views[i])|
      ensures Clean(suites[i].cases[j]) <==> oracle(views[i].name, FilesOf(views[i])[j]).Accepted?
    {
      var judged := oracle(views[i].name, FilesOf(views[i])[j]);
      assert AllReadable(oracle, views[i].name, FilesOf(views[i]));
      assert suites[i].cases[j] == CaseReport(FilesOf(views[i])[j].name, Problems(judged));
    }
  }

  /** The case files of some suites in order, each with the name of its suite. */
  function CaseFilesOf(views: seq<SuiteView>): seq<(string, Entry)> {
    if views == [] then []
    else CaseFilesOf(views[..|views| - 1]) + Labelled(views[|views| - 1].name, FilesOf(views[|views| - 1]))
  }

  function Labelled(name: string, files: seq<Entry>): seq<(string, Entry)> {
    seq(|files|, i requires 0 <= i < |files| => (name, files[i]))
  }

  lemma {:induction false} CheckableFiles(views: seq<SuiteView>)
    ensures CaseFilesOf(Checkable(views)) == CaseFilesOf(views)
  {
    hide Labelled;
    if views != [] {
      var init, last := views[..|views| - 1], views[|views| - 1];
      CheckableFiles(init);
      if last.cases.CaseList? {
        assert (Checkable(init) + [last])[..|Checkable(init)|] == Checkable(init);
      } else {
        assert Checkable(views) == Checkable(init);
        assert Labelled(last.name, []) == [] by { NoneLabelled(last.name); }
      }
    }
  }

  lemma NoneLabelled(name: string)
    ensures Labelled(name, []) == []
  {
  }

  /** The case files the validator checks, in the order it checks them, are those a run
      executes, in its order: a run of the directory itself or, if the directory is a
      suite, that suite's run from the directory above. */
  lemma ChecksWhatRuns(name: string, root: seq<Entry>)
    requires !Hidden(name)
    ensures CaseFilesOf(SuiteDirs(name, root))
         == CaseFilesOf(if CasesOf(root).CaseList? then Views([Entry(name, Dir(root))]) else Views(root))
  {
    hide CasesOf;
    hide TemplatesOf;
    if CasesOf(root).CaseList? {
      assert [Entry(name, Dir(root))][..0] == [];
    } else {
      CheckableFiles(Views(root));
    }
  }
}
