/** The declarative reading of a case run, and that the run is exactly it. */
module TraceLaws {

  import opened Objects
  import opened Lifecycle
  import opened Reports
  import opened CaseTrace

  // ---- steps run as a prefix up to the first failure ----

  function StartOf(w: World, spans: seq<Span>, i: nat): World
    requires i <= |spans|
  {
    if i == 0 then w else spans[i - 1].post
  }

  ghost predicate RanAt(kit: Kit, ctx: Context, steps: seq<MaybeStep>, w: World, spans: seq<Span>, i: nat)
    requires i < |spans| <= |steps|
  {
    spans[i] == RunStep(kit, ctx, steps[i], StartOf(w, spans, i))
  }

  ghost predicate Prefix(kit: Kit, ctx: Context, steps: seq<MaybeStep>, w: World, spans: seq<Span>) {
    && |spans| <= |steps|
    && (forall i: nat :: i < |spans| ==> RanAt(kit, ctx, steps, w, spans, i))
    && (forall i :: 0 <= i < |spans| - 1 ==> spans[i].err == {})
    && (|spans| < |steps| ==> spans != [] && spans[|spans| - 1].err != {})
  }

  lemma {:induction false} StepsRunAsPrefix(kit: Kit, ctx: Context, steps: seq<MaybeStep>, w: World)
    ensures Prefix(kit, ctx, steps, w, RunSteps(kit, ctx, steps, w))
  {
    hide RunStep;
    if steps != [] {
      var s := RunStep(kit, ctx, steps[0], w);
      if s.err == {} {
        StepsRunAsPrefix(kit, ctx, steps[1..], s.post);
        var rest := RunSteps(kit, ctx, steps[1..], s.post);
        var all := [s] + rest;
        forall i: nat | i < |all| ensures RanAt(kit, ctx, steps, w, all, i) {
          if i > 0 { assert RanAt(kit, ctx, steps[1..], s.post, rest, i - 1); }
        }
      }
    }
  }

  lemma {:induction false} PrefixDetermined(kit: Kit, ctx: Context, steps: seq<MaybeStep>, w: World, spans: seq<Span>)
    requires Prefix(kit, ctx, steps, w, spans)
    ensures spans == RunSteps(kit, ctx, steps, w)
    decreases |steps|
  {
    hide RunStep;
    if steps != [] {
      var s := spans[0];
      assert RanAt(kit, ctx, steps, w, spans, 0);
      if s.err == {} {
        var rest := spans[1..];
        forall i: nat | i < |rest| ensures RanAt(kit, ctx, steps[1..], s.post, rest, i) {
          assert RanAt(kit, ctx, steps, w, spans, i + 1);
        }
        PrefixDetermined(kit, ctx, steps[1..], s.post, rest);
        assert spans == [s] + rest;
      } else {
        assert spans == [s];
      }
    }
  }

  // ---- rounds ----

  /** Before-hooks first; the main step exactly if they all passed; the after-hooks
      always, from wherever that left the world. */
  ghost predicate Lawful(kit: Kit, ctx: Context, c: Case, r: Round) {
    && Prefix(kit, ctx, c.beforeEach, r.pre, r.before)
    && (r.main.Some? <==> |r.before| == |c.beforeEach| && forall i :: 0 <= i < |r.before| ==> r.before[i].err == {})
    && (r.main.Some? ==> r.main.value == RunStep(kit, ctx, r.step, EndOf(r.pre, r.before)))
    && Prefix(kit, ctx, c.afterEach, EndOf(EndOf(r.pre, r.before), One(r.main)), r.after)
  }

  lemma RoundIsLawful(kit: Kit, ctx: Context, c: Case, st: MaybeStep, w: World)
    ensures Lawful(kit, ctx, c, RunRound(kit, ctx, c, st, w))
  {
    hide RunStep;
    hide RunSteps;
    var r := RunRound(kit, ctx, c, st, w);
    StepsRunAsPrefix(kit, ctx, c.beforeEach, w);
    StepsRunAsPrefix(kit, ctx, c.afterEach, EndOf(EndOf(w, r.before), One(r.main)));
  }

  lemma LawfulDetermined(kit: Kit, ctx: Context, c: Case, r: Round)
    requires Lawful(kit, ctx, c, r)
    ensures r == RunRound(kit, ctx, c, r.step, r.pre)
  {
    hide RunStep;
    hide RunSteps;
    PrefixDetermined(kit, ctx, c.beforeEach, r.pre, r.before);
    PrefixDetermined(kit, ctx, c.afterEach, EndOf(EndOf(r.pre, r.before), One(r.main)), r.after);
  }

  // ---- the whole case ----

  function RoundStart(w: World, rounds: seq<Round>, i: nat): World
    requires i <= |rounds|
  {
    if i == 0 then w else RoundEnd(rounds[i - 1])
  }

  ghost predicate RoundAt(
    kit: Kit, ctx: Context, c: Case, steps: seq<MaybeStep>, w: World, rounds: seq<Round>, i: nat)
    requires i < |rounds| <= |steps|
  {
    rounds[i].step == steps[i] && rounds[i].pre == RoundStart(w, rounds, i) && Lawful(kit, ctx, c, rounds[i])
  }

  ghost predicate Chained(kit: Kit, ctx: Context, c: Case, steps: seq<MaybeStep>, w: World, rounds: seq<Round>) {
    && |rounds| <= |steps|
    && (forall i: nat :: i < |rounds| ==> RoundAt(kit, ctx, c, steps, w, rounds, i))
    && (forall i :: 0 <= i < |rounds| - 1 ==> RoundErr(rounds[i]) == {})
    && (|rounds| < |steps| ==> rounds != [] && RoundErr(rounds[|rounds| - 1]) != {})
  }

  lemma {:induction false} RoundsChain(kit: Kit, ctx: Context, c: Case, steps: seq<MaybeStep>, w: World)
    ensures Chained(kit, ctx, c, steps, w, RunRounds(kit, ctx, c, steps, w))
  {
    hide RunRound;
    hide Lawful;
    hide RoundErr;
    hide RoundEnd;
    if steps != [] {
      var r := RunRound(kit, ctx, c, steps[0], w);
      RoundIsLawful(kit, ctx, c, steps[0], w);
      RoundShape(kit, ctx, c, steps[0], w);
      if RoundErr(r) == {} {
        RoundsChain(kit, ctx, c, steps[1..], RoundEnd(r));
        var rest := RunRounds(kit, ctx, c, steps[1..], RoundEnd(r));
        var all := [r] + rest;
        forall i: nat | i < |all| ensures RoundAt(kit, ctx, c, steps, w, all, i) {
          if i > 0 { assert RoundAt(kit, ctx, c, steps[1..], RoundEnd(r), rest, i - 1); }
        }
      }
    }
  }

  lemma RoundShape(kit: Kit, ctx: Context, c: Case, st: MaybeStep, w: World)
    ensures RunRound(kit, ctx, c, st, w).step == st && RunRound(kit, ctx, c, st, w).pre == w
  {
    hide RunSteps;
    hide RunStep;
  }

  lemma {:induction false} ChainDetermined(
    kit: Kit, ctx: Context, c: Case, steps: seq<MaybeStep>, w: World, rounds: seq<Round>)
    requires Chained(kit, ctx, c, steps, w, rounds)
    ensures rounds == RunRounds(kit, ctx, c, steps, w)
    decreases |steps|
  {
    hide RunRound;
    hide Lawful;
    hide RoundErr;
    hide RoundEnd;
    if steps != [] {
      var r := rounds[0];
      assert RoundAt(kit, ctx, c, steps, w, rounds, 0);
      LawfulDetermined(kit, ctx, c, r);
      if RoundErr(r) == {} {
        var rest := rounds[1..];
        forall i: nat | i < |rest| ensures RoundAt(kit, ctx, c, steps[1..], RoundEnd(r), rest, i) {
          assert RoundAt(kit, ctx, c, steps, w, rounds, i + 1);
        }
        ChainDetermined(kit, ctx, c, steps[1..], RoundEnd(r), rest);
        assert rounds == [r] + rest;
      } else {
        assert rounds == [r];
      }
    }
  }

  /** Rounds in step order up to the first whose joined error is non-nil, then one
      sweep whenever the case has steps, its error joined to the rounds' error. */
  ghost predicate LawfulCase(kit: Kit, ctx: Context, c: Case, w: World, run: CaseRun) {
    && Chained(kit, ctx, c, c.steps, w, run.rounds)
    && run.report == RunningReport(c, run.rounds)
    && (if c.steps == [] then run.end == w && run.err == {}
        else var (w', sweepErr) := kit.sweep(RoundsEnd(w, run.rounds));
             run.end == w' && run.err == RoundsErr(run.rounds) + sweepErr)
  }

  /** The declarative laws hold of the case run and of nothing else. */
  lemma CaseRunIff(kit: Kit, ctx: Context, c: Case, w: World, run: CaseRun)
    ensures LawfulCase(kit, ctx, c, w, run) <==> run == RunCase(kit, ctx, c, w)
  {
    hide RunRounds;
    hide RoundsEnd;
    hide RunningReport;
    if LawfulCase(kit, ctx, c, w, run) {
      ChainDetermined(kit, ctx, c, c.steps, w, run.rounds);
      if c.steps == [] { assert run.rounds == []; }
    }
    if run == RunCase(kit, ctx, c, w) {
      RoundsChain(kit, ctx, c, c.steps, w);
    }
  }

  // ---- soundness of the reports ----

  ghost predicate SoundStep(s: StepReport) {
    && s.state in {Passed, Failed, Skipped}
    && s.stats == Tally(s.actions)
    && s.passed + s.failed == |s.actions| <= s.total
    && (s.state.Passed? <==> s.reason == {})
  }

  lemma BatchCounts(kit: Kit, ctx: Context, acts: seq<Action>, w: World)
    ensures var b := RunActions(kit, ctx, acts, w);
            Count(ActionStates(b.reports), {Passed}) + Count(ActionStates(b.reports), {Failed})
              == |b.reports| <= |acts|
  {
    var b := RunActions(kit, ctx, acts, w);
    hide RunActions;
    var states := ActionStates(b.reports);
    assert forall i :: 0 <= i < |states| ==> states[i] in {Passed} + {Failed};
    CountsAddUp(states, {Passed}, {Failed});
  }

  lemma FinishedStepSound(st: Step, b: Batch)
    requires Count(ActionStates(b.reports), {Passed}) + Count(ActionStates(b.reports), {Failed})
          == |b.reports| <= |Configured(st)|
    ensures var (report, err) := FinishStep(st, b);
            && SoundStep(report)
            && (report.state.Failed? <==> err != {})
            && (report.state.Skipped? ==> st.optional)
  {
    hide Configured;
    hide Tally;
    hide Count;
    hide ActionStates;
  }

  lemma GivenStepSound(kit: Kit, ctx: Context, st: Step, w: World)
    ensures var s := RunStep(kit, ctx, Some(st), w);
            && SoundStep(s.report)
            && (s.report.state.Failed? <==> s.err != {})
            && (s.report.state.Skipped? ==> st.optional)
  {
    hide Tally;
    hide Configured;
    hide FinishStep;
    hide SoundStep;
    hide RunActions;
    BatchCounts(kit, StepContext(ctx, st), Configured(st), w);
    FinishedStepSound(st, RunActions(kit, StepContext(ctx, st), Configured(st), w));
  }

  /** A step reports failed exactly when it returns an error; passed plus failed is
      the number of actions that ran. */
  lemma StepReportSound(kit: Kit, ctx: Context, st: MaybeStep, w: World)
    ensures var s := RunStep(kit, ctx, st, w);
            && SoundStep(s.report)
            && (s.report.state.Failed? <==> s.err != {})
            && (s.report.state.Skipped? ==> st.Some? && st.value.optional)
  {
    hide SoundStep;
    match st {
      case Some(given) =>
        hide RunStep;
        GivenStepSound(kit, ctx, given, w);
      case None =>
        hide Tally;
        NilStepSound();
    }
  }

  lemma NilStepSound()
    ensures SoundStep(NilStepReport)
  {
    NilReportTallies();
  }

  lemma NilReportTallies()
    ensures Tally([]) == NoStats
  {
  }

  /** The reports of one round, hooks included. */
  function RoundReports(r: Round): seq<StepReport> {
    ReportsOf(r.before) + [MainReport(r)] + ReportsOf(r.after)
  }

  ghost predicate NoneFailed(rs: seq<StepReport>) {
    forall i :: 0 <= i < |rs| ==> !rs[i].state.Failed?
  }

  lemma PrefixSound(kit: Kit, ctx: Context, steps: seq<MaybeStep>, w: World, spans: seq<Span>)
    requires Prefix(kit, ctx, steps, w, spans)
    ensures forall i :: 0 <= i < |spans| ==> SoundStep(spans[i].report)
    ensures ErrOf(spans) == {} <==> NoneFailed(ReportsOf(spans))
  {
    hide RunStep;
    hide SoundStep;
    forall i | 0 <= i < |spans|
      ensures SoundStep(spans[i].report) && (spans[i].report.state.Failed? <==> spans[i].err != {})
    {
      assert RanAt(kit, ctx, steps, w, spans, i);
      StepReportSound(kit, ctx, steps[i], StartOf(w, spans, i));
    }
    if spans != [] {
      assert ReportsOf(spans)[|spans| - 1] == spans[|spans| - 1].report;
    }
  }

  /** The main report is sound, and failed exactly when the main step has an error. */
  lemma MainReportSound(kit: Kit, ctx: Context, c: Case, r: Round)
    requires Lawful(kit, ctx, c, r)
    ensures SoundStep(MainReport(r))
    ensures MainReport(r).state.Failed? <==> ErrOf(One(r.main)) != {}
    ensures r.main.None? ==> ErrOf(r.before) != {}
  {
    hide RunStep;
    hide Prefix;
    if r.main.Some? {
      hide SoundStep;
      StepReportSound(kit, ctx, r.step, EndOf(r.pre, r.before));
    } else {
      hide Configured;
      NilReportTallies();
      PrefixStops(kit, ctx, c.beforeEach, r.pre, r.before);
    }
  }

  lemma NoneFailedParts(a: seq<StepReport>, m: StepReport, b: seq<StepReport>)
    ensures NoneFailed(a + [m] + b) <==> NoneFailed(a) && !m.state.Failed? && NoneFailed(b)
  {
    var all := a + [m] + b;
    if NoneFailed(all) {
      assert all[|a|] == m;
      assert forall i :: 0 <= i < |a| ==> a[i] == all[i];
      assert forall i :: 0 <= i < |b| ==> b[i] == all[|a| + 1 + i];
    }
  }

  /** A round has an error exactly when one of its reports is failed. */
  lemma RoundReportsSound(kit: Kit, ctx: Context, c: Case, r: Round)
    requires Lawful(kit, ctx, c, r)
    ensures RoundErr(r) == {} <==> NoneFailed(RoundReports(r))
    ensures SoundStep(MainReport(r))
    ensures forall i :: 0 <= i < |r.before| ==> SoundStep(r.before[i].report)
    ensures forall i :: 0 <= i < |r.after| ==> SoundStep(r.after[i].report)
  {
    hide RunStep;
    hide Prefix;
    hide SoundStep;
    hide MainReport;
    hide ReportsOf;
    hide NoneFailed;
    hide ErrOf;
    PrefixSound(kit, ctx, c.beforeEach, r.pre, r.before);
    PrefixSound(kit, ctx, c.afterEach, EndOf(EndOf(r.pre, r.before), One(r.main)), r.after);
    MainReportSound(kit, ctx, c, r);
    NoneFailedParts(ReportsOf(r.before), MainReport(r), ReportsOf(r.after));
  }

  lemma PrefixStops(kit: Kit, ctx: Context, steps: seq<MaybeStep>, w: World, spans: seq<Span>)
    requires Prefix(kit, ctx, steps, w, spans)
    requires !(|spans| == |steps| && forall i :: 0 <= i < |spans| ==> spans[i].err == {})
    ensures ErrOf(spans) != {}
  {
    hide RunStep;
  }

  /** The report built from lawful rounds tallies, and its counts add up. */
  lemma RunningReportSound(c: Case, rounds: seq<Round>)
    requires forall i :: 0 <= i < |rounds| ==> SoundRound(rounds[i])
    ensures var r := RunningReport(c, rounds);
            && Tallied(r.steps) && (r.hooks.Some? ==> Tallied(r.hooks.value.before) && Tallied(r.hooks.value.after))
            && r.passed + r.failed == |r.steps| == |rounds|
  {
    hide SoundRound;
    hide Tallied;
    hide BeforeReports;
    hide AfterReports;
    hide MainReport;
    MainsSound(rounds);
    HooksTallied(rounds);
    CountsAddUp(StepStates(MainReports(rounds)), {Passed, Skipped}, {Failed});
  }

  lemma ChainedSound(kit: Kit, ctx: Context, c: Case, steps: seq<MaybeStep>, w: World, rounds: seq<Round>)
    requires Chained(kit, ctx, c, steps, w, rounds)
    ensures forall i :: 0 <= i < |rounds| ==> SoundRound(rounds[i])
    ensures |rounds| <= |steps| && (RoundsErr(rounds) == {} ==> |rounds| == |steps|)
  {
    hide Lawful;
    hide RoundErr;
    hide RoundEnd;
    forall i: nat | i < |rounds| ensures SoundRound(rounds[i]) {
      assert RoundAt(kit, ctx, c, steps, w, rounds, i);
      RoundReportsSound(kit, ctx, c, rounds[i]);
    }
  }

  /** The case report: it tallies, its counts add up to the steps it lists, and it
      lists all declared steps unless some round had an error. */
  lemma CaseReportSound(kit: Kit, ctx: Context, c: Case, w: World)
    ensures var run := RunCase(kit, ctx, c, w);
            var final := FinishCase(run.report, run.err);
            && CaseTallied(final)
            && final.passed + final.failed == |final.steps| <= final.total == |c.steps|
            && (RoundsErr(run.rounds) == {} ==> |final.steps| == final.total)
            && (final.state.Failed? <==> run.err != {})
            && (final.state.Passed? <==> run.err == {})
  {
    hide RunRounds;
    hide Chained;
    hide RoundErr;
    hide SoundRound;
    hide Tallied;
    hide SumSteps;
    var run := RunCase(kit, ctx, c, w);
    RoundsChain(kit, ctx, c, c.steps, w);
    if c.steps != [] {
      ChainedSound(kit, ctx, c, c.steps, w, run.rounds);
    }
    RunningReportSound(c, run.rounds);
    ReportFrame(c, run.rounds);
    hide RunningReport;
  }

  lemma ReportFrame(c: Case, rounds: seq<Round>)
    ensures RunningReport(c, rounds).total == |c.steps| && RunningReport(c, rounds).state.Unset?
  {
  }

  ghost predicate SoundRound(r: Round) {
    && SoundStep(MainReport(r))
    && (forall i :: 0 <= i < |r.before| ==> SoundStep(r.before[i].report))
    && (forall i :: 0 <= i < |r.after| ==> SoundStep(r.after[i].report))
  }

  lemma MainsSound(rounds: seq<Round>)
    requires forall i :: 0 <= i < |rounds| ==> SoundRound(rounds[i])
    ensures Tallied(MainReports(rounds))
    ensures forall i :: 0 <= i < |rounds| ==> StepStates(MainReports(rounds))[i] in {Passed, Skipped} + {Failed}
  {
    hide Tally;
    hide MainReport;
    assert forall i :: 0 <= i < |rounds| ==> MainReports(rounds)[i] == MainReport(rounds[i]);
  }

  lemma {:induction false} HooksTallied(rounds: seq<Round>)
    requires forall i :: 0 <= i < |rounds| ==> SoundRound(rounds[i])
    ensures Tallied(BeforeReports(rounds)) && Tallied(AfterReports(rounds))
  {
    hide Tally;
    hide MainReport;
    if rounds != [] {
      var last := |rounds| - 1;
      assert SoundRound(rounds[last]);
      HooksTallied(rounds[..last]);
    }
  }

  lemma ChainFailsIffReported(
    kit: Kit, ctx: Context, c: Case, steps: seq<MaybeStep>, w: World, rounds: seq<Round>)
    requires Chained(kit, ctx, c, steps, w, rounds)
    ensures RoundsErr(rounds) == {} <==> forall i :: 0 <= i < |rounds| ==> NoneFailed(RoundReports(rounds[i]))
  {
    hide Lawful;
    hide RoundErr;
    hide RoundEnd;
    hide RoundReports;
    hide NoneFailed;
    forall i: nat | i < |rounds| ensures RoundErr(rounds[i]) == {} <==> NoneFailed(RoundReports(rounds[i])) {
      assert RoundAt(kit, ctx, c, steps, w, rounds, i);
      RoundReportsSound(kit, ctx, c, rounds[i]);
    }
  }

  /** The steps and hooks of a case have an error exactly when one of their reports
      is failed; only a cleanup failure fails a case without such a report. */
  lemma CaseFailsIffReported(kit: Kit, ctx: Context, c: Case, w: World)
    ensures var run := RunCase(kit, ctx, c, w);
            RoundsErr(run.rounds) == {} <==>
              forall i :: 0 <= i < |run.rounds| ==> NoneFailed(RoundReports(run.rounds[i]))
  {
    hide RunRounds;
    hide Chained;
    hide RoundErr;
    hide RoundReports;
    hide NoneFailed;
    hide RunningReport;
    RoundsChain(kit, ctx, c, c.steps, w);
    if c.steps != [] {
      ChainFailsIffReported(kit, ctx, c, c.steps, w, RunRounds(kit, ctx, c, c.steps, w));
    }
  }
}
