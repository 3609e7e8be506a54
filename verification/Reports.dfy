/** Execution reports of actions, steps, cases, suites and runs, and the counters
and sums over them. Timestamps and durations are not modelled; a report's reason
is the error it prints. */
module Reports {

  import opened Errors
  import opened Objects

  /** Unset is the zero value of a report that nothing finished yet. */
  datatype State = Unset | Passed | Failed | Skipped

  datatype Name = EnsureName | PatchName | WaitName | AssertName | LogsName | ExecName | DeleteName

  datatype Stats = Stats(ensured: nat, patched: nat, deleted: nat) {
    function Add(other: Stats): Stats {
      Stats(ensured + other.ensured, patched + other.patched, deleted + other.deleted)
    }
  }

  const NoStats := Stats(0, 0, 0)

  datatype ActionReport = ActionReport(action: Name, target: string, state: State, reason: Err)

  datatype StepReport = StepReport(
    name: string, optional: bool, state: State, reason: Err,
    passed: nat, failed: nat, total: nat, stats: Stats, actions: seq<ActionReport>)

  datatype HooksReport = HooksReport(before: seq<StepReport>, after: seq<StepReport>)

  datatype CaseReport = CaseReport(
    name: string, state: State, reason: Err, hooks: Option<HooksReport>,
    passed: nat, failed: nat, total: nat, stats: Stats, steps: seq<StepReport>)

  datatype SuiteReport = SuiteReport(
    name: string, state: State, reason: Err,
    passed: nat, failed: nat, total: nat, stats: Stats, cases: seq<CaseReport>)

  datatype RunReport = RunReport(passed: nat, failed: nat, total: nat, tests: seq<SuiteReport>)

  // ---- counting ----

  function ActionStates(rs: seq<ActionReport>): seq<State> { seq(|rs|, i requires 0 <= i < |rs| => rs[i].state) }
  function StepStates(rs: seq<StepReport>): seq<State> { seq(|rs|, i requires 0 <= i < |rs| => rs[i].state) }
  function CaseStates(rs: seq<CaseReport>): seq<State> { seq(|rs|, i requires 0 <= i < |rs| => rs[i].state) }
  function SuiteStates(rs: seq<SuiteReport>): seq<State> { seq(|rs|, i requires 0 <= i < |rs| => rs[i].state) }

  /** How many of the states are in the given set. */
  function Count(states: seq<State>, which: set<State>): (n: nat)
    ensures n <= |states|
    ensures n == 0 <==> forall i :: 0 <= i < |states| ==> states[i] !in which
  {
    if states == [] then 0
    else
      var last := |states| - 1;
      var n := Count(states[..last], which);
      assert forall i :: 0 <= i < |states| ==> states[i] == if i < last then states[..last][i] else states[last];
      n + if states[last] in which then 1 else 0
  }

  lemma {:induction false} CountsAddUp(states: seq<State>, a: set<State>, b: set<State>)
    requires a !! b
    ensures Count(states, a) + Count(states, b) == Count(states, a + b)
    ensures (forall i :: 0 <= i < |states| ==> states[i] in a + b) ==> Count(states, a + b) == |states|
  {
    if states != [] {
      var last := |states| - 1;
      CountsAddUp(states[..last], a, b);
      assert forall i :: 0 <= i < last ==> states[..last][i] == states[i];
    }
  }

  lemma CountSnoc(states: seq<State>, s: State, which: set<State>)
    ensures Count(states + [s], which) == Count(states, which) + if s in which then 1 else 0
  {
    assert (states + [s])[..|states|] == states;
  }

  // ---- sums of stats ----

  /** What one action adds: passed ensure, patch and delete actions count. */
  function Worth(r: ActionReport): Stats {
    if !r.state.Passed? then NoStats
    else match r.action
      case EnsureName => Stats(1, 0, 0)
      case PatchName => Stats(0, 1, 0)
      case DeleteName => Stats(0, 0, 1)
      case _ => NoStats
  }

  function Tally(actions: seq<ActionReport>): Stats {
    if actions == [] then NoStats
    else Tally(actions[..|actions| - 1]).Add(Worth(actions[|actions| - 1]))
  }

  function SumSteps(rs: seq<StepReport>): Stats {
    if rs == [] then NoStats else SumSteps(rs[..|rs| - 1]).Add(rs[|rs| - 1].stats)
  }

  function CaseStats(r: CaseReport): Stats {
    match r.hooks
    case None => SumSteps(r.steps)
    case Some(h) => SumSteps(r.steps).Add(SumSteps(h.before)).Add(SumSteps(h.after))
  }

  function SumCases(rs: seq<CaseReport>): Stats {
    if rs == [] then NoStats else SumCases(rs[..|rs| - 1]).Add(rs[|rs| - 1].stats)
  }

  // ---- the flattened tree ----

  function StepActions(rs: seq<StepReport>): seq<ActionReport> {
    if rs == [] then [] else StepActions(rs[..|rs| - 1]) + rs[|rs| - 1].actions
  }

  /** Main steps, then before-hooks, then after-hooks. */
  function CaseActions(r: CaseReport): seq<ActionReport> {
    StepActions(r.steps) + match r.hooks
      case None => []
      case Some(h) => StepActions(h.before) + StepActions(h.after)
  }

  function SuiteActions(rs: seq<CaseReport>): seq<ActionReport> {
    if rs == [] then [] else SuiteActions(rs[..|rs| - 1]) + CaseActions(rs[|rs| - 1])
  }

  lemma AddAssociates(a: Stats, b: Stats, c: Stats)
    ensures a.Add(b).Add(c) == a.Add(b.Add(c)) && a.Add(NoStats) == a
  {
  }

  lemma {:induction false} TallyAppend(a: seq<ActionReport>, b: seq<ActionReport>)
    ensures Tally(a + b) == Tally(a).Add(Tally(b))
    decreases |b|
  {
    hide Worth;
    hide Stats.Add;
    if b == [] {
      assert a + b == a;
      AddAssociates(Tally(a), NoStats, NoStats);
    } else {
      var init, x := b[..|b| - 1], b[|b| - 1];
      TallyAppend(a, init);
      assert (a + b)[..|a + b| - 1] == a + init && (a + b)[|a + b| - 1] == x;
      AddAssociates(Tally(a), Tally(init), Worth(x));
    }
  }

  /** Each step report carries the tally of its own actions. */
  predicate Tallied(rs: seq<StepReport>) {
    forall i :: 0 <= i < |rs| ==> rs[i].stats == Tally(rs[i].actions)
  }

  predicate CaseTallied(r: CaseReport) {
    Tallied(r.steps) && r.stats == CaseStats(r)
    && (r.hooks.Some? ==> Tallied(r.hooks.value.before) && Tallied(r.hooks.value.after))
  }

  lemma {:induction false} StepsConserveStats(rs: seq<StepReport>)
    requires Tallied(rs)
    ensures SumSteps(rs) == Tally(StepActions(rs))
  {
    if rs != [] {
      var last := |rs| - 1;
      StepsConserveStats(rs[..last]);
      TallyAppend(StepActions(rs[..last]), rs[last].actions);
    }
  }

  lemma CaseConservesStats(r: CaseReport)
    requires CaseTallied(r)
    ensures r.stats == Tally(CaseActions(r))
  {
    assert Tally([]) == NoStats;
    hide Tally;
    hide Stats.Add;
    hide SumSteps;
    hide StepActions;
    hide Tallied;
    StepsConserveStats(r.steps);
    var mains := StepActions(r.steps);
    match r.hooks {
      case None =>
        assert mains + [] == mains;
      case Some(h) =>
        StepsConserveStats(h.before);
        StepsConserveStats(h.after);
        var before, after := StepActions(h.before), StepActions(h.after);
        TallyAppend(before, after);
        TallyAppend(mains, before + after);
        AddAssociates(Tally(mains), Tally(before), Tally(after));
    }
  }

  predicate AllTallied(rs: seq<CaseReport>) {
    forall i :: 0 <= i < |rs| ==> CaseTallied(rs[i])
  }

  lemma SuiteConservesOneMore(rs: seq<CaseReport>, r: CaseReport)
    requires CaseTallied(r) && SumCases(rs) == Tally(SuiteActions(rs))
    ensures SumCases(rs).Add(r.stats) == Tally(SuiteActions(rs) + CaseActions(r))
  {
    hide CaseTallied;
    hide Tally;
    CaseConservesStats(r);
    TallyAppend(SuiteActions(rs), CaseActions(r));
  }

  /** Summing case by case gives the tally of the flattened tree. */
  lemma {:induction false} SuiteConservesStats(rs: seq<CaseReport>)
    requires AllTallied(rs)
    ensures SumCases(rs) == Tally(SuiteActions(rs))
  {
    hide CaseTallied;
    if rs != [] {
      var last := |rs| - 1;
      SuiteConservesStats(rs[..last]);
      SuiteConservesOneMore(rs[..last], rs[last]);
    }
  }

  // ---- sizes of index sets ----

  /** The positions whose state is one of these. */
  ghost function Having(states: seq<State>, which: set<State>): set<int> {
    set i | 0 <= i < |states| && states[i] in which
  }

  lemma {:induction false} CountIsSize(states: seq<State>, which: set<State>)
    ensures Count(states, which) == |Having(states, which)|
  {
    if states == [] {
      assert Having(states, which) == {};
    } else {
      var k := |states| - 1;
      CountIsSize(states[..k], which);
      assert Having(states, which) == Having(states[..k], which) + if states[k] in which then {k} else {};
    }
  }

  /** The positions of the passed reports of one kind of action. */
  ghost function Passing(rs: seq<ActionReport>, name: Name): set<int> {
    set i | 0 <= i < |rs| && rs[i].state.Passed? && rs[i].action == name
  }

  /** Ensured, patched and deleted count the passed reports of their own kind. */
  lemma {:induction false} TallyCounts(rs: seq<ActionReport>)
    ensures Tally(rs)
         == Stats(|Passing(rs, EnsureName)|, |Passing(rs, PatchName)|, |Passing(rs, DeleteName)|)
  {
    if rs == [] {
      assert forall name :: Passing(rs, name) == {};
    } else {
      var k := |rs| - 1;
      TallyCounts(rs[..k]);
      PassingSnoc(rs, EnsureName);
      PassingSnoc(rs, PatchName);
      PassingSnoc(rs, DeleteName);
    }
  }

  predicate Passes(r: ActionReport, name: Name) {
    r.state.Passed? && r.action == name
  }

  lemma PassingGrows(rs: seq<ActionReport>, name: Name)
    requires rs != []
    ensures var k := |rs| - 1;
            && k !in Passing(rs[..k], name)
            && Passing(rs, name) == if Passes(rs[k], name) then Passing(rs[..k], name) + {k} else Passing(rs[..k], name)
  {
    var k := |rs| - 1;
    assert forall i :: 0 <= i < k ==> rs[..k][i] == rs[i];
  }

  lemma PassingSnoc(rs: seq<ActionReport>, name: Name)
    requires rs != []
    ensures var k := |rs| - 1;
            |Passing(rs, name)| == |Passing(rs[..k], name)| + if Passes(rs[k], name) then 1 else 0
  {
    PassingGrows(rs, name);
    hide Passing;
  }

  // ---- the loops ----

  lemma CountNext(states: seq<State>, n: nat, which: set<State>)
    requires n < |states|
    ensures Count(states[..n + 1], which) == Count(states[..n], which) + if states[n] in which then 1 else 0
  {
    assert states[..n + 1] == states[..n] + [states[n]];
    CountSnoc(states[..n], states[n], which);
  }

  method CountActions(rs: seq<ActionReport>) returns (passed: nat, failed: nat)
    ensures passed == Count(ActionStates(rs), {Passed}) && failed == Count(ActionStates(rs), {Failed})
    ensures passed == |Having(ActionStates(rs), {Passed})| && failed == |Having(ActionStates(rs), {Failed})|
  {
    var states := ActionStates(rs);
    passed, failed := 0, 0;
    assert Count(states[..0], {Passed}) == 0 && Count(states[..0], {Failed}) == 0;
    hide Count;
    for n := 0 to |states|
      invariant passed == Count(states[..n], {Passed}) && failed == Count(states[..n], {Failed})
    {
      CountNext(states, n, {Passed});
      CountNext(states, n, {Failed});
      if states[n].Passed? {
        passed := passed + 1;
      } else if states[n].Failed? {
        failed := failed + 1;
      }
    }
    assert states[..|states|] == states;
    CountIsSize(states, {Passed});
    CountIsSize(states, {Failed});
  }

  /** countSteps, countCases and countTests: skipped counts as passed. */
  method CountOutcomes(states: seq<State>) returns (passed: nat, failed: nat)
    ensures passed == Count(states, {Passed, Skipped}) && failed == Count(states, {Failed})
    ensures passed == |Having(states, {Passed, Skipped})| && failed == |Having(states, {Failed})|
  {
    passed, failed := 0, 0;
    assert Count(states[..0], {Passed, Skipped}) == 0 && Count(states[..0], {Failed}) == 0;
    hide Count;
    for n := 0 to |states|
      invariant passed == Count(states[..n], {Passed, Skipped}) && failed == Count(states[..n], {Failed})
    {
      CountNext(states, n, {Passed, Skipped});
      CountNext(states, n, {Failed});
      if states[n].Passed? || states[n].Skipped? {
        passed := passed + 1;
      } else if states[n].Failed? {
        failed := failed + 1;
      }
    }
    assert states[..|states|] == states;
    CountIsSize(states, {Passed, Skipped});
    CountIsSize(states, {Failed});
  }

  lemma TallySnoc(rs: seq<ActionReport>, n: nat)
    requires n < |rs|
    ensures Tally(rs[..n + 1]) == Tally(rs[..n]).Add(Worth(rs[n]))
  {
    hide Worth;
    assert rs[..n + 1][..n] == rs[..n];
  }

  method CountAction(stats: Stats, r: ActionReport) returns (counted: Stats)
    ensures counted == stats.Add(Worth(r))
  {
    counted := stats;
    if !r.state.Passed? {
      return;
    }
    match r.action
    case EnsureName => counted := stats.(ensured := stats.ensured + 1);
    case PatchName => counted := stats.(patched := stats.patched + 1);
    case DeleteName => counted := stats.(deleted := stats.deleted + 1);
    case _ =>
  }

  method ObjectStats(rs: seq<ActionReport>) returns (stats: Stats)
    ensures stats == Tally(rs)
    ensures stats.ensured == |Passing(rs, EnsureName)|
    ensures stats.patched == |Passing(rs, PatchName)|
    ensures stats.deleted == |Passing(rs, DeleteName)|
  {
    TallyCounts(rs);
    hide Passing;
    hide Worth;
    stats := NoStats;
    for n := 0 to |rs|
      invariant stats == Tally(rs[..n])
    {
      TallySnoc(rs, n);
      stats := CountAction(stats, rs[n]);
    }
    assert rs[..|rs|] == rs;
  }

  method StepStats(rs: seq<StepReport>) returns (stats: Stats)
    ensures stats == SumSteps(rs)
  {
    stats := NoStats;
    for n := 0 to |rs|
      invariant stats == SumSteps(rs[..n])
    {
      assert rs[..n + 1][..n] == rs[..n];
      stats := stats.Add(rs[n].stats);
    }
    assert rs[..|rs|] == rs;
  }

  method SumStats(rs: seq<CaseReport>) returns (stats: Stats)
    ensures stats == SumCases(rs)
  {
    stats := NoStats;
    for n := 0 to |rs|
      invariant stats == SumCases(rs[..n])
    {
      assert rs[..n + 1][..n] == rs[..n];
      stats := stats.Add(rs[n].stats);
    }
    assert rs[..|rs|] == rs;
  }
}
