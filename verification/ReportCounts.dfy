/** What the counters and the stats of the reports count: positions in the reports. */
module ReportCounts {

  import opened Objects
  import opened Reports

  lemma {:induction false} PassingAppend(a: seq<ActionReport>, b: seq<ActionReport>, name: Name)
    ensures |Passing(a + b, name)| == |Passing(a, name)| + |Passing(b, name)|
    decreases |b|
  {
    if b == [] {
      assert a + b == a && Passing(b, name) == {};
    } else {
      var k := |b| - 1;
      PassingAppend(a, b[..k], name);
      assert (a + b)[..|a + b| - 1] == a + b[..k];
      PassingSnoc(a + b, name);
      PassingSnoc(b, name);
    }
  }

  // ---- positions in the report tree ----

  datatype Part = MainPart | BeforePart | AfterPart

  /** The main steps of a case report, or its hook steps. */
  function StepsIn(c: CaseReport, part: Part): seq<StepReport> {
    match part
    case MainPart => c.steps
    case BeforePart => if c.hooks.Some? then c.hooks.value.before else []
    case AfterPart => if c.hooks.Some? then c.hooks.value.after else []
  }

  /** An action report: in which case, among its main or hook steps, in which step, where. */
  datatype Spot = Spot(cas: int, part: Part, step: int, action: int)

  ghost predicate Counted(cases: seq<CaseReport>, name: Name, s: Spot) {
    && 0 <= s.cas < |cases|
    && 0 <= s.step < |StepsIn(cases[s.cas], s.part)|
    && var rs := StepsIn(cases[s.cas], s.part)[s.step].actions;
       0 <= s.action < |rs| && rs[s.action].state.Passed? && rs[s.action].action == name
  }

  /** One step's positions. */
  ghost function Row(cas: int, part: Part, step: int, actions: set<int>): set<Spot> {
    set k | k in actions :: Spot(cas, part, step, k)
  }

  /** The passed actions of one kind in one list of steps. */
  ghost function SpotsOfSteps(cas: int, part: Part, steps: seq<StepReport>, name: Name): set<Spot> {
    if steps == [] then {}
    else
      var k := |steps| - 1;
      SpotsOfSteps(cas, part, steps[..k], name) + Row(cas, part, k, Passing(steps[k].actions, name))
  }

  ghost predicate CountedIn(steps: seq<StepReport>, name: Name, s: Spot) {
    && 0 <= s.step < |steps| && s.action in Passing(steps[s.step].actions, name)
  }

  lemma {:induction false} SpotsOfStepsExactly(cas: int, part: Part, steps: seq<StepReport>, name: Name, s: Spot)
    ensures s in SpotsOfSteps(cas, part, steps, name) <==> s.cas == cas && s.part == part && CountedIn(steps, name, s)
    decreases |steps|
  {
    hide Passing;
    if steps != [] {
      var k := |steps| - 1;
      SpotsOfStepsExactly(cas, part, steps[..k], name, s);
    }
  }

  ghost function SpotsOfCase(cas: int, c: CaseReport, name: Name): set<Spot> {
    SpotsOfSteps(cas, MainPart, StepsIn(c, MainPart), name)
    + SpotsOfSteps(cas, BeforePart, StepsIn(c, BeforePart), name)
    + SpotsOfSteps(cas, AfterPart, StepsIn(c, AfterPart), name)
  }

  ghost function SpotsUpTo(cases: seq<CaseReport>, name: Name, n: nat): set<Spot>
    requires n <= |cases|
  {
    if n == 0 then {} else SpotsUpTo(cases, name, n - 1) + SpotsOfCase(n - 1, cases[n - 1], name)
  }

  /** All passed actions of one kind anywhere in the tree: main steps, before-hooks and
      after-hooks of every case. */
  ghost function Spots(cases: seq<CaseReport>, name: Name): set<Spot> {
    SpotsUpTo(cases, name, |cases|)
  }

  /** A spot is exactly a position that holds such a report. */
  lemma SpotsExactly(cases: seq<CaseReport>, name: Name, s: Spot)
    ensures s in Spots(cases, name) <==> Counted(cases, name, s)
  {
    SpotsUpToExactly(cases, name, |cases|, s);
  }

  lemma SpotsOfCaseExactly(cas: int, c: CaseReport, name: Name, s: Spot)
    ensures s in SpotsOfCase(cas, c, name) <==> s.cas == cas && CountedIn(StepsIn(c, s.part), name, s)
  {
    hide SpotsOfSteps;
    SpotsOfStepsExactly(cas, MainPart, StepsIn(c, MainPart), name, s);
    SpotsOfStepsExactly(cas, BeforePart, StepsIn(c, BeforePart), name, s);
    SpotsOfStepsExactly(cas, AfterPart, StepsIn(c, AfterPart), name, s);
    hide StepsIn;
    hide CountedIn;
    match s.part
    case MainPart =>
    case BeforePart =>
    case AfterPart =>
  }

  lemma {:induction false} SpotsUpToExactly(cases: seq<CaseReport>, name: Name, n: nat, s: Spot)
    requires n <= |cases|
    ensures s in SpotsUpTo(cases, name, n) <==> Counted(cases, name, s) && s.cas < n
    decreases n
  {
    if n > 0 {
      SpotsUpToExactly(cases, name, n - 1, s);
      SpotsOfCaseExactly(n - 1, cases[n - 1], name, s);
      hide SpotsOfCase;
      hide StepsIn;
    }
  }

  lemma RowGrows(cas: int, part: Part, step: int, actions: set<int>, k: int)
    requires k !in actions
    ensures |Row(cas, part, step, actions + {k})| == |Row(cas, part, step, actions)| + 1
  {
    var spot := Spot(cas, part, step, k);
    assert spot !in Row(cas, part, step, actions);
    assert Row(cas, part, step, actions + {k}) == Row(cas, part, step, actions) + {spot};
  }

  lemma NoRow(cas: int, part: Part, step: int, name: Name)
    ensures Row(cas, part, step, Passing([], name)) == {} && Passing([], name) == {}
  {
  }

  lemma {:induction false} RowSize(cas: int, part: Part, step: int, rs: seq<ActionReport>, name: Name)
    ensures |Row(cas, part, step, Passing(rs, name))| == |Passing(rs, name)|
    decreases |rs|
  {
    hide Row;
    hide Passing;
    if rs == [] {
      NoRow(cas, part, step, name);
    } else {
      var k := |rs| - 1;
      RowSize(cas, part, step, rs[..k], name);
      PassingGrows(rs, name);
      RowGrows(cas, part, step, Passing(rs[..k], name), k);
    }
  }

  lemma {:induction false} StepsSpots(cas: int, part: Part, steps: seq<StepReport>, name: Name)
    ensures |SpotsOfSteps(cas, part, steps, name)| == |Passing(StepActions(steps), name)|
    decreases |steps|
  {
    hide Passing;
    if steps == [] {
      NonePassing(name);
    } else {
      var k := |steps| - 1;
      var init, acts := steps[..k], steps[k].actions;
      StepsSpots(cas, part, init, name);
      PassingAppend(StepActions(init), acts, name);
      RowSize(cas, part, k, acts, name);
      var before, row := SpotsOfSteps(cas, part, init, name), Row(cas, part, k, Passing(acts, name));
      forall s | s in before ensures s !in row {
        SpotsOfStepsExactly(cas, part, init, name, s);
      }
      assert before !! row;
    }
  }

  lemma CaseSpots(cas: int, c: CaseReport, name: Name)
    ensures |SpotsOfCase(cas, c, name)| == |Passing(CaseActions(c), name)|
  {
    var mains, befores, afters := StepsIn(c, MainPart), StepsIn(c, BeforePart), StepsIn(c, AfterPart);
    StepsSpots(cas, MainPart, mains, name);
    StepsSpots(cas, BeforePart, befores, name);
    StepsSpots(cas, AfterPart, afters, name);
    PassingAppend(StepActions(befores), StepActions(afters), name);
    PassingAppend(StepActions(mains), StepActions(befores) + StepActions(afters), name);
    var a, b, d := SpotsOfSteps(cas, MainPart, mains, name), SpotsOfSteps(cas, BeforePart, befores, name),
      SpotsOfSteps(cas, AfterPart, afters, name);
    forall s | s in a ensures s !in b && s !in d {
      SpotsOfStepsExactly(cas, MainPart, mains, name, s);
      SpotsOfStepsExactly(cas, BeforePart, befores, name, s);
      SpotsOfStepsExactly(cas, AfterPart, afters, name, s);
    }
    forall s | s in b ensures s !in d {
      SpotsOfStepsExactly(cas, BeforePart, befores, name, s);
      SpotsOfStepsExactly(cas, AfterPart, afters, name, s);
    }
    assert a !! b && (a + b) !! d;
    assert CaseActions(c) == StepActions(mains) + (StepActions(befores) + StepActions(afters)) by {
      assert StepActions([]) == [];
    }
  }

  lemma {:induction false} SuiteSpots(cases: seq<CaseReport>, name: Name, n: nat)
    requires n <= |cases|
    ensures |SpotsUpTo(cases, name, n)| == |Passing(SuiteActions(cases[..n]), name)|
    decreases n
  {
    hide SpotsOfCase;
    hide CaseActions;
    hide Passing;
    if n == 0 {
      NonePassing(name);
    } else {
      var c := cases[n - 1];
      SuiteSpots(cases, name, n - 1);
      CaseSpots(n - 1, c, name);
      PassingAppend(SuiteActions(cases[..n - 1]), CaseActions(c), name);
      assert cases[..n][..n - 1] == cases[..n - 1];
      SpotsApart(cases, name, n - 1);
    }
  }

  lemma NonePassing(name: Name)
    ensures Passing([], name) == {}
  {
  }

  lemma SpotsApart(cases: seq<CaseReport>, name: Name, n: nat)
    requires n < |cases|
    ensures SpotsUpTo(cases, name, n) !! SpotsOfCase(n, cases[n], name)
  {
    hide SpotsUpTo;
    hide SpotsOfCase;
    hide Counted;
    hide CountedIn;
    forall s | s in SpotsUpTo(cases, name, n) ensures s !in SpotsOfCase(n, cases[n], name) {
      SpotsUpToExactly(cases, name, n, s);
      SpotsOfCaseExactly(n, cases[n], name, s);
    }
  }

  /** The stats of a tallied list of case reports are the numbers of passed ensure, patch
      and delete actions in the whole tree. */
  lemma StatsCountTree(cases: seq<CaseReport>)
    requires AllTallied(cases)
    ensures SumCases(cases)
         == Stats(|Spots(cases, EnsureName)|, |Spots(cases, PatchName)|, |Spots(cases, DeleteName)|)
  {
    hide AllTallied;
    hide Passing;
    hide Tally;
    hide SumCases;
    SuiteConservesStats(cases);
    TallyCounts(SuiteActions(cases));
    SuiteSpots(cases, EnsureName, |cases|);
    SuiteSpots(cases, PatchName, |cases|);
    SuiteSpots(cases, DeleteName, |cases|);
    assert cases[..|cases|] == cases;
  }
}
