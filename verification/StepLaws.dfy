/** What one step does: its actions in the fixed order, and the rule that makes its
report and its error. */
module StepLaws {

  import opened Errors
  import opened Objects
  import opened Lifecycle
  import opened Reports
  import opened CaseTrace

  // ---- the fixed order ----

  function Rank(n: Name): nat {
    match n
    case EnsureName => 0
    case PatchName => 1
    case WaitName => 2
    case AssertName => 3
    case LogsName => 4
    case ExecName => 5
    case DeleteName => 6
  }

  /** The step configures an action of this name. */
  predicate Has(s: Step, n: Name) {
    match n
    case EnsureName => s.ensure.Some?
    case PatchName => s.patch.Some?
    case WaitName => s.waiting.Some?
    case AssertName => s.check.Some?
    case LogsName => s.logs.Some?
    case ExecName => s.exec.Some?
    case DeleteName => s.delete.Some?
  }

  /** The object it is about. */
  function TargetNamed(s: Step, n: Name): string
    requires Has(s, n)
  {
    match n
    case EnsureName => s.ensure.value.objectName
    case PatchName => s.patch.value.target.objectName
    case WaitName => s.waiting.value.target.objectName
    case AssertName => s.check.value.target.objectName
    case LogsName => s.logs.value.target.objectName
    case ExecName => s.exec.value.target.objectName
    case DeleteName => s.delete.value.target.objectName
  }

  ghost predicate Increasing(acts: seq<Action>) {
    forall i, j :: 0 <= i < j < |acts| ==> Rank(NameOf(acts[i])) < Rank(NameOf(acts[j]))
  }

  ghost predicate AllBelow(s: Step, acts: seq<Action>, rank: nat) {
    forall i :: 0 <= i < |acts| ==>
      && Has(s, NameOf(acts[i])) && TargetOf(acts[i]) == TargetNamed(s, NameOf(acts[i]))
      && Rank(NameOf(acts[i])) < rank
  }

  ghost predicate CompleteBelow(s: Step, acts: seq<Action>, rank: nat) {
    forall n :: Has(s, n) && Rank(n) < rank ==> exists i :: 0 <= i < |acts| && NameOf(acts[i]) == n
  }

  /** Exactly the configured actions below this rank, in rank order. */
  ghost predicate InOrderUpTo(s: Step, acts: seq<Action>, rank: nat) {
    Increasing(acts) && AllBelow(s, acts, rank) && CompleteBelow(s, acts, rank)
  }

  /** What the step configures of one kind. */
  function Block(s: Step, n: Name): seq<Action> {
    match n
    case EnsureName => if s.ensure.Some? then [DoEnsure(s.ensure.value)] else []
    case PatchName => if s.patch.Some? then [DoPatch(s.patch.value)] else []
    case WaitName => if s.waiting.Some? then [DoWait(s.waiting.value)] else []
    case AssertName => if s.check.Some? then [DoAssert(s.check.value)] else []
    case LogsName => if s.logs.Some? then [DoLogs(s.logs.value)] else []
    case ExecName => if s.exec.Some? then [DoExec(s.exec.value)] else []
    case DeleteName => if s.delete.Some? then [DoDelete(s.delete.value)] else []
  }

  lemma BlockFits(s: Step, n: Name)
    ensures if Has(s, n) then
              |Block(s, n)| == 1 && NameOf(Block(s, n)[0]) == n && TargetOf(Block(s, n)[0]) == TargetNamed(s, n)
            else Block(s, n) == []
  {
  }

  lemma RankInjective(m: Name, n: Name)
    requires Rank(m) == Rank(n)
    ensures m == n
  {
  }

  lemma NextIncreases(s: Step, acts: seq<Action>, act: Action)
    requires Increasing(acts) && AllBelow(s, acts, Rank(NameOf(act)))
    requires Has(s, NameOf(act)) && TargetOf(act) == TargetNamed(s, NameOf(act))
    ensures Increasing(acts + [act]) && AllBelow(s, acts + [act], Rank(NameOf(act)) + 1)
  {
    hide NameOf;
    hide TargetOf;
    hide TargetNamed;
    hide Has;
    hide Rank;
  }

  lemma NextCompletes(s: Step, acts: seq<Action>, n: Name, block: seq<Action>)
    requires CompleteBelow(s, acts, Rank(n))
    requires Has(s, n) ==> |block| == 1 && NameOf(block[0]) == n
    ensures CompleteBelow(s, acts + block, Rank(n) + 1)
  {
    hide NameOf;
    hide Has;
    hide Rank;
    var all := acts + block;
    forall m | Has(s, m) && Rank(m) < Rank(n) + 1 ensures exists i :: 0 <= i < |all| && NameOf(all[i]) == m {
      if Rank(m) < Rank(n) {
        var i :| 0 <= i < |acts| && NameOf(acts[i]) == m;
        assert all[i] == acts[i];
      } else {
        RankInjective(m, n);
        assert all[|acts|] == block[0];
      }
    }
  }

  lemma NextBlock(s: Step, acts: seq<Action>, n: Name)
    requires InOrderUpTo(s, acts, Rank(n))
    ensures InOrderUpTo(s, acts + Block(s, n), Rank(n) + 1)
  {
    BlockFits(s, n);
    hide NameOf;
    hide TargetOf;
    hide TargetNamed;
    hide Has;
    hide Block;
    hide Rank;
    hide Increasing;
    hide CompleteBelow;
    NextCompletes(s, acts, n, Block(s, n));
    if Has(s, n) {
      var act := Block(s, n)[0];
      assert Block(s, n) == [act];
      NextIncreases(s, acts, act);
    } else {
      assert acts + Block(s, n) == acts;
    }
  }

  lemma ConfiguredInBlocks(s: Step)
    ensures Configured(s)
         == Block(s, EnsureName) + Block(s, PatchName) + Block(s, WaitName) + Block(s, AssertName)
            + Block(s, LogsName) + Block(s, ExecName) + Block(s, DeleteName)
  {
  }

  lemma ConfiguredInOrder(s: Step)
    ensures InOrderUpTo(s, Configured(s), 7)
  {
    ConfiguredInBlocks(s);
    NothingInOrder(s);
    hide Configured;
    hide Block;
    hide InOrderUpTo;
    var a0 := Block(s, EnsureName);
    NextBlock(s, [], EnsureName);
    assert [] + a0 == a0;
    NextBlock(s, a0, PatchName);
    var a2 := a0 + Block(s, PatchName) + Block(s, WaitName);
    NextBlock(s, a0 + Block(s, PatchName), WaitName);
    NextBlock(s, a2, AssertName);
    NextBlock(s, a2 + Block(s, AssertName), LogsName);
    var a5 := a2 + Block(s, AssertName) + Block(s, LogsName) + Block(s, ExecName);
    NextBlock(s, a2 + Block(s, AssertName) + Block(s, LogsName), ExecName);
    NextBlock(s, a5, DeleteName);
  }

  lemma NothingInOrder(s: Step)
    ensures InOrderUpTo(s, [], 0)
  {
  }

  /** The reports are those of a prefix of the actions, one each. */
  lemma {:induction false} ReportsFollow(kit: Kit, ctx: Context, acts: seq<Action>, w: World)
    ensures var rs := RunActions(kit, ctx, acts, w).reports;
            |rs| <= |acts| && forall i :: 0 <= i < |rs| ==>
              rs[i].action == NameOf(acts[i]) && rs[i].target == TargetOf(acts[i])
    decreases |acts|
  {
    hide NameOf;
    hide TargetOf;
    if acts != [] {
      var (w1, e) := kit.perform(ctx, acts[0], w);
      ReportsFollow(kit, ctx, acts[1..], w1);
    }
  }

  /** The reports of a list of actions: in the fixed order, of configured actions, none
      skipped before a reported one, and all of them if none failed. */
  ghost predicate ReportedInOrder(s: Step, rs: seq<ActionReport>, complete: bool) {
    && (forall i, j :: 0 <= i < j < |rs| ==> Rank(rs[i].action) < Rank(rs[j].action))
    && (forall i :: 0 <= i < |rs| ==> Has(s, rs[i].action) && rs[i].target == TargetNamed(s, rs[i].action))
    && (forall i, n :: 0 <= i < |rs| && Has(s, n) && Rank(n) < Rank(rs[i].action)
          ==> exists j :: 0 <= j < i && rs[j].action == n)
    && (complete ==> forall n :: Has(s, n) ==> exists j :: 0 <= j < |rs| && rs[j].action == n)
  }

  lemma PrefixReportedInOrder(s: Step, acts: seq<Action>, rs: seq<ActionReport>)
    requires InOrderUpTo(s, acts, 7) && |rs| <= |acts|
    requires forall i :: 0 <= i < |rs| ==> rs[i].action == NameOf(acts[i]) && rs[i].target == TargetOf(acts[i])
    ensures ReportedInOrder(s, rs, |rs| == |acts|)
  {
    hide NameOf;
    hide TargetOf;
    hide TargetNamed;
    hide Has;
    forall i, n | 0 <= i < |rs| && Has(s, n) && Rank(n) < Rank(rs[i].action)
      ensures exists j :: 0 <= j < i && rs[j].action == n
    {
      var j :| 0 <= j < |acts| && NameOf(acts[j]) == n;
      assert j < i;
      assert rs[j].action == n;
    }
    if |rs| == |acts| {
      forall n | Has(s, n) ensures exists j :: 0 <= j < |rs| && rs[j].action == n {
        RankBelowSeven(n);
        var j :| 0 <= j < |acts| && NameOf(acts[j]) == n;
        assert rs[j].action == n;
      }
    }
  }

  lemma RankBelowSeven(n: Name)
    ensures Rank(n) < 7
  {
  }

  /** The actions of a step run in the order ensure, patch, wait, assert, logs, exec,
      delete: the reports are of configured actions, ranks increase, no configured action
      of lower rank is missing, all but the last passed, and a step none of whose actions
      failed has run them all. */
  lemma ActionsInOrder(kit: Kit, ctx: Context, s: Step, w: World)
    ensures var rs := RunStep(kit, ctx, Some(s), w).report.actions;
            && ReportedInOrder(s, rs, forall i :: 0 <= i < |rs| ==> rs[i].state.Passed?)
            && (forall i :: 0 <= i < |rs| - 1 ==> rs[i].state.Passed?)
            && (forall i :: 0 <= i < |rs| ==> rs[i].state in {Passed, Failed})
  {
    var acts := Configured(s);
    ConfiguredInOrder(s);
    ReportsFollow(kit, StepContext(ctx, s), acts, w);
    var b := RunActions(kit, StepContext(ctx, s), acts, w);
    StepReportsBatch(kit, ctx, s, w);
    hide Configured;
    hide NameOf;
    hide TargetOf;
    hide RunStep;
    hide RunActions;
    hide InOrderUpTo;
    PrefixReportedInOrder(s, acts, b.reports);
    hide ReportedInOrder;
    AllPassedMeansComplete(b, acts);
    WeakerReport(s, b.reports, |b.reports| == |acts|, forall i :: 0 <= i < |b.reports| ==> b.reports[i].state.Passed?);
  }

  lemma StepReportsBatch(kit: Kit, ctx: Context, s: Step, w: World)
    ensures RunStep(kit, ctx, Some(s), w).report.actions
         == RunActions(kit, StepContext(ctx, s), Configured(s), w).reports
  {
    hide RunActions;
    hide Configured;
    hide Tally;
    hide Count;
  }

  lemma AllPassedMeansComplete(b: Batch, acts: seq<Action>)
    requires b.err == {} ==> |b.reports| == |acts|
    requires forall i :: 0 <= i < |b.reports| ==>
      b.reports[i].state == (if i == |b.reports| - 1 && b.err != {} then Failed else Passed)
    requires b.err != {} ==> b.reports != []
    ensures (forall i :: 0 <= i < |b.reports| ==> b.reports[i].state.Passed?) ==> |b.reports| == |acts|
  {
    if b.err != {} {
      assert b.reports[|b.reports| - 1].state.Failed?;
    }
  }

  lemma WeakerReport(s: Step, rs: seq<ActionReport>, complete: bool, weaker: bool)
    requires ReportedInOrder(s, rs, complete) && (weaker ==> complete)
    ensures ReportedInOrder(s, rs, weaker)
  {
  }

  // ---- the rule of a step ----

  function Flag(b: bool): nat {
    if b then 1 else 0
  }

  /** The last action report is failed. */
  predicate Stopped(rs: seq<ActionReport>) {
    rs != [] && rs[|rs| - 1].state.Failed?
  }

  /** The report and error of a step, from its action reports alone: a failed action fails
      the step with its reason, unless the step is optional, which skips it instead. */
  ghost predicate StepRule(s: Step, r: StepReport, e: Err) {
    && r.name == s.name && r.optional == s.optional
    && r.total == Flag(s.ensure.Some?) + Flag(s.patch.Some?) + Flag(s.waiting.Some?) + Flag(s.check.Some?)
                  + Flag(s.logs.Some?) + Flag(s.exec.Some?) + Flag(s.delete.Some?)
    && r.passed == |Having(ActionStates(r.actions), {Passed})|
    && r.failed == |Having(ActionStates(r.actions), {Failed})|
    && r.stats.ensured == |Passing(r.actions, EnsureName)|
    && r.stats.patched == |Passing(r.actions, PatchName)|
    && r.stats.deleted == |Passing(r.actions, DeleteName)|
    && if !Stopped(r.actions) then r.state == Passed && r.reason == {} && e == {}
       else
         && r.reason == r.actions[|r.actions| - 1].reason != {}
         && r.state == (if s.optional then Skipped else Failed)
         && e == if s.optional then {} else r.reason
  }

  lemma {:induction false} LastReason(kit: Kit, ctx: Context, acts: seq<Action>, w: World)
    ensures var b := RunActions(kit, ctx, acts, w);
            b.err != {} ==> b.reports != [] && b.reports[|b.reports| - 1].reason == b.err
    decreases |acts|
  {
    hide NameOf;
    hide TargetOf;
    if acts != [] {
      LastReason(kit, ctx, acts[1..], kit.perform(ctx, acts[0], w).0);
    }
  }

  lemma ConfiguredSize(s: Step)
    ensures |Configured(s)|
         == Flag(s.ensure.Some?) + Flag(s.patch.Some?) + Flag(s.waiting.Some?) + Flag(s.check.Some?)
            + Flag(s.logs.Some?) + Flag(s.exec.Some?) + Flag(s.delete.Some?)
  {
  }

  lemma StepsFollowRule(kit: Kit, ctx: Context, s: Step, w: World)
    ensures var span := RunStep(kit, ctx, Some(s), w); StepRule(s, span.report, span.err)
  {
    var acts := Configured(s);
    ConfiguredSize(s);
    hide Configured;
    LastReason(kit, StepContext(ctx, s), acts, w);
    var b := RunActions(kit, StepContext(ctx, s), acts, w);
    hide RunActions;
    CountIsSize(ActionStates(b.reports), {Passed});
    CountIsSize(ActionStates(b.reports), {Failed});
    TallyCounts(b.reports);
    hide Having;
    hide Passing;
    hide ActionStates;
    hide Count;
    hide Tally;
    hide Flag;
  }
}
