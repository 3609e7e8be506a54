/** What a run, and the validator, read of a suite directory. */
module SuiteViews {

  import opened Objects
  import opened Paths
  import opened FileTree
  import opened TestImage

  datatype CasesView = NoCases | NotADirectory | CaseList(files: seq<Entry>)

  datatype SuiteView = SuiteView(name: string, cases: CasesView, templates: seq<Entry>)

  /** The case files: regular, with exactly the extension .yaml. */
  function CaseEntries(entries: seq<Entry>): seq<Entry> {
    if entries == [] then []
    else
      var last := entries[|entries| - 1];
      CaseEntries(entries[..|entries| - 1]) + if last.node.File? && IsCaseFile(last.name) then [last] else []
  }

  /** What the glob *.yaml matches, directories too. */
  function TemplateEntries(entries: seq<Entry>): seq<Entry> {
    if entries == [] then []
    else
      var last := entries[|entries| - 1];
      TemplateEntries(entries[..|entries| - 1]) + if IsCaseFile(last.name) then [last] else []
  }

  function CasesOf(suite: seq<Entry>): CasesView {
    match Find(suite, CasesName)
    case None => NoCases
    case Some(File(_)) => NotADirectory
    case Some(Dir(entries)) => CaseList(CaseEntries(entries))
  }

  function TemplatesOf(suite: seq<Entry>): seq<Entry> {
    match Find(suite, TemplatesName)
    case Some(Dir(entries)) => TemplateEntries(entries)
    case _ => []
  }

  function View(e: Entry): SuiteView
    requires e.node.Dir?
  {
    SuiteView(e.name, CasesOf(e.node.entries), TemplatesOf(e.node.entries))
  }

  /** The suites a run of a work directory discovers. */
  function Views(root: seq<Entry>): seq<SuiteView> {
    if root == [] then []
    else
      var last := root[|root| - 1];
      Views(root[..|root| - 1]) + if last.node.Dir? && !Hidden(last.name) then [View(last)] else []
  }

  function WithCases(views: seq<SuiteView>): seq<SuiteView> {
    if views == [] then []
    else
      var last := views[|views| - 1];
      WithCases(views[..|views| - 1]) + if last.cases.NoCases? then [] else [last]
  }
}
