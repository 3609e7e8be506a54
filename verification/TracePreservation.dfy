/** What every action keeps, every step, round and case keeps. */
module TracePreservation {

  import opened Lifecycle
  import opened CaseTrace

  type Relation = (World, World) -> bool

  /** Which actions are to be performed, and in which surroundings. */
  type Filter = (Context, Action) -> bool

  function Anything(): Filter {
    (ctx: Context, act: Action) => true
  }

  /** A reflexive and transitive relation that every admitted action steps along. */
  ghost predicate Preserves(kit: Kit, r: Relation, may: Filter) {
    && (forall w :: r(w, w))
    && (forall w, w', w'' :: r(w, w') && r(w', w'') ==> r(w, w''))
    && (forall ctx, act, w :: may(ctx, act) ==> r(w, kit.perform(ctx, act, w).0))
  }

  predicate Admitted(may: Filter, ctx: Context, acts: seq<Action>) {
    forall i :: 0 <= i < |acts| ==> may(ctx, acts[i])
  }

  predicate StepAdmitted(may: Filter, ctx: Context, st: MaybeStep) {
    st.Some? ==> Admitted(may, StepContext(ctx, st.value), Configured(st.value))
  }

  predicate StepsAdmitted(may: Filter, ctx: Context, steps: seq<MaybeStep>) {
    forall i :: 0 <= i < |steps| ==> StepAdmitted(may, ctx, steps[i])
  }

  // ---- the worlds a case goes through ----

  /** The world after each action that is performed. */
  function ActionWorlds(kit: Kit, ctx: Context, acts: seq<Action>, w: World): seq<World> {
    if acts == [] then []
    else
      var (w1, e) := kit.perform(ctx, acts[0], w);
      [w1] + if e != {} then [] else ActionWorlds(kit, ctx, acts[1..], w1)
  }

  function StepWorlds(kit: Kit, ctx: Context, st: MaybeStep, w: World): seq<World> {
    match st
    case None => []
    case Some(s) => ActionWorlds(kit, StepContext(ctx, s), Configured(s), w)
  }

  function StepsWorlds(kit: Kit, ctx: Context, steps: seq<MaybeStep>, w: World): seq<World> {
    if steps == [] then []
    else
      var s := RunStep(kit, ctx, steps[0], w);
      StepWorlds(kit, ctx, steps[0], w) + if s.err != {} then [] else StepsWorlds(kit, ctx, steps[1..], s.post)
  }

  function RoundWorlds(kit: Kit, ctx: Context, c: Case, st: MaybeStep, w: World): seq<World> {
    var round := RunRound(kit, ctx, c, st, w);
    var w1 := EndOf(w, round.before);
    var w2 := EndOf(w1, One(round.main));
    StepsWorlds(kit, ctx, c.beforeEach, w)
    + (if round.main.Some? then StepWorlds(kit, ctx, st, w1) else [])
    + StepsWorlds(kit, ctx, c.afterEach, w2)
  }

  /** The world after each action of each hook and step of each round. */
  function RoundsWorlds(kit: Kit, ctx: Context, c: Case, steps: seq<MaybeStep>, w: World): seq<World> {
    if steps == [] then []
    else
      var r := RunRound(kit, ctx, c, steps[0], w);
      RoundWorlds(kit, ctx, c, steps[0], w)
      + if RoundErr(r) != {} then [] else RoundsWorlds(kit, ctx, c, steps[1..], RoundEnd(r))
  }

  function CaseWorlds(kit: Kit, ctx: Context, c: Case, w: World): seq<World> {
    RoundsWorlds(kit, ctx, c, c.steps, w)
  }

  function Last(w: World, ws: seq<World>): World {
    if ws == [] then w else ws[|ws| - 1]
  }

  // ---- what each action keeps holds of each of them ----

  predicate AllFrom(r: Relation, w: World, ws: seq<World>) {
    forall i :: 0 <= i < |ws| ==> r(w, ws[i])
  }

  lemma AllFromAppend(kit: Kit, r: Relation, may: Filter, w: World, a: seq<World>, b: seq<World>)
    requires Preserves(kit, r, may) && AllFrom(r, w, a) && AllFrom(r, Last(w, a), b)
    ensures AllFrom(r, w, a + b) && Last(w, a + b) == Last(Last(w, a), b)
  {
    var mid := Last(w, a);
    assert r(w, mid);
    forall i | 0 <= i < |a + b| ensures r(w, (a + b)[i]) {
      if i >= |a| {
        assert r(mid, b[i - |a|]);
      }
    }
  }

  lemma {:induction false} ActionsKeep(
    kit: Kit, r: Relation, may: Filter, ctx: Context, acts: seq<Action>, w: World)
    requires Preserves(kit, r, may) && Admitted(may, ctx, acts)
    ensures var ws := ActionWorlds(kit, ctx, acts, w);
            AllFrom(r, w, ws) && Last(w, ws) == RunActions(kit, ctx, acts, w).world
    ensures |ActionWorlds(kit, ctx, acts, w)| == |RunActions(kit, ctx, acts, w).reports|
    decreases |acts|
  {
    hide Finished;
    hide AllFrom;
    if acts == [] {
      assert AllFrom(r, w, []) by { NoneFrom(r, w); }
    } else {
      var (w1, e) := kit.perform(ctx, acts[0], w);
      assert r(w, w1);
      assert AllFrom(r, w, [w1]) by { OneFrom(r, w, w1); }
      if e == {} {
        ActionsKeep(kit, r, may, ctx, acts[1..], w1);
        AllFromAppend(kit, r, may, w, [w1], ActionWorlds(kit, ctx, acts[1..], w1));
      } else {
        assert [w1] + [] == [w1];
      }
    }
  }

  lemma NoneFrom(r: Relation, w: World)
    ensures AllFrom(r, w, [])
  {
  }

  lemma OneFrom(r: Relation, w: World, w': World)
    requires r(w, w')
    ensures AllFrom(r, w, [w'])
  {
  }

  lemma StepKeeps(kit: Kit, r: Relation, may: Filter, ctx: Context, st: MaybeStep, w: World)
    requires Preserves(kit, r, may) && StepAdmitted(may, ctx, st)
    ensures var ws := StepWorlds(kit, ctx, st, w);
            AllFrom(r, w, ws) && Last(w, ws) == RunStep(kit, ctx, st, w).post
  {
    hide RunActions;
    hide ActionWorlds;
    hide Configured;
    hide Admitted;
    hide Preserves;
    if st.Some? {
      ActionsKeep(kit, r, may, StepContext(ctx, st.value), Configured(st.value), w);
    }
  }

  lemma {:induction false} StepsKeep(
    kit: Kit, r: Relation, may: Filter, ctx: Context, steps: seq<MaybeStep>, w: World)
    requires Preserves(kit, r, may) && StepsAdmitted(may, ctx, steps)
    ensures var ws := StepsWorlds(kit, ctx, steps, w);
            AllFrom(r, w, ws) && Last(w, ws) == EndOf(w, RunSteps(kit, ctx, steps, w))
    decreases |steps|
  {
    hide RunStep;
    hide StepWorlds;
    hide StepAdmitted;
    hide AllFrom;
    hide Preserves;
    if steps == [] {
      NoneFrom(r, w);
    } else {
      var s, first := RunStep(kit, ctx, steps[0], w), StepWorlds(kit, ctx, steps[0], w);
      StepKeeps(kit, r, may, ctx, steps[0], w);
      if s.err == {} {
        StepsKeep(kit, r, may, ctx, steps[1..], s.post);
        AllFromAppend(kit, r, may, w, first, StepsWorlds(kit, ctx, steps[1..], s.post));
        assert EndOf(w, [s] + RunSteps(kit, ctx, steps[1..], s.post))
            == EndOf(s.post, RunSteps(kit, ctx, steps[1..], s.post));
      } else {
        assert first + [] == first;
      }
    }
  }

  predicate HooksAdmitted(may: Filter, ctx: Context, c: Case) {
    StepsAdmitted(may, ctx, c.beforeEach) && StepsAdmitted(may, ctx, c.afterEach)
  }

  lemma RoundKeeps(kit: Kit, r: Relation, may: Filter, ctx: Context, c: Case, st: MaybeStep, w: World)
    requires Preserves(kit, r, may) && HooksAdmitted(may, ctx, c) && StepAdmitted(may, ctx, st)
    ensures var ws := RoundWorlds(kit, ctx, c, st, w);
            AllFrom(r, w, ws) && Last(w, ws) == RoundEnd(RunRound(kit, ctx, c, st, w))
  {
    hide RunStep;
    hide RunSteps;
    hide StepWorlds;
    hide StepsWorlds;
    hide StepAdmitted;
    hide StepsAdmitted;
    hide AllFrom;
    hide Preserves;
    var round := RunRound(kit, ctx, c, st, w);
    var w1 := EndOf(w, round.before);
    var w2 := EndOf(w1, One(round.main));
    var first := StepsWorlds(kit, ctx, c.beforeEach, w);
    var second := if round.main.Some? then StepWorlds(kit, ctx, st, w1) else [];
    StepsKeep(kit, r, may, ctx, c.beforeEach, w);
    StepKeeps(kit, r, may, ctx, st, w1);
    NoneFrom(r, w1);
    AllFromAppend(kit, r, may, w, first, second);
    StepsKeep(kit, r, may, ctx, c.afterEach, w2);
    AllFromAppend(kit, r, may, w, first + second, StepsWorlds(kit, ctx, c.afterEach, w2));
  }

  lemma RoundsUnfold(kit: Kit, ctx: Context, c: Case, steps: seq<MaybeStep>, w: World)
    requires steps != []
    ensures var r, first := RunRound(kit, ctx, c, steps[0], w), RoundWorlds(kit, ctx, c, steps[0], w);
            var end := RoundEnd(r);
            if RoundErr(r) != {} then
              && RoundsWorlds(kit, ctx, c, steps, w) == first
              && RoundsEnd(w, RunRounds(kit, ctx, c, steps, w)) == end
            else
              && RoundsWorlds(kit, ctx, c, steps, w) == first + RoundsWorlds(kit, ctx, c, steps[1..], end)
              && RoundsEnd(w, RunRounds(kit, ctx, c, steps, w))
                 == RoundsEnd(end, RunRounds(kit, ctx, c, steps[1..], end))
  {
    hide RunRound;
    hide RoundWorlds;
    hide RoundEnd;
    hide RoundErr;
    var first := RoundWorlds(kit, ctx, c, steps[0], w);
    assert first + [] == first;
  }

  lemma {:induction false} RoundsKeep(
    kit: Kit, r: Relation, may: Filter, ctx: Context, c: Case, steps: seq<MaybeStep>, w: World)
    requires Preserves(kit, r, may) && HooksAdmitted(may, ctx, c) && StepsAdmitted(may, ctx, steps)
    ensures var ws := RoundsWorlds(kit, ctx, c, steps, w);
            AllFrom(r, w, ws) && Last(w, ws) == RoundsEnd(w, RunRounds(kit, ctx, c, steps, w))
    decreases |steps|
  {
    hide StepAdmitted;
    hide HooksAdmitted;
    hide AllFrom;
    hide Preserves;
    hide RunRound;
    hide RoundWorlds;
    hide RoundEnd;
    hide RoundErr;
    if steps == [] {
      NoneFrom(r, w);
    } else {
      hide RunRounds;
      hide RoundsWorlds;
      hide RoundsEnd;
      var round, first := RunRound(kit, ctx, c, steps[0], w), RoundWorlds(kit, ctx, c, steps[0], w);
      RoundKeeps(kit, r, may, ctx, c, steps[0], w);
      RoundsUnfold(kit, ctx, c, steps, w);
      if RoundErr(round) == {} {
        RoundsKeep(kit, r, may, ctx, c, steps[1..], RoundEnd(round));
        AllFromAppend(kit, r, may, w, first, RoundsWorlds(kit, ctx, c, steps[1..], RoundEnd(round)));
      }
    }
  }

  predicate CaseAdmitted(may: Filter, ctx: Context, c: Case) {
    HooksAdmitted(may, ctx, c) && StepsAdmitted(may, ctx, c.steps)
  }

  /** What every action keeps holds after every action of every hook and step of a
      case, and of the world the cleanup starts from. */
  lemma CaseKeeps(kit: Kit, r: Relation, may: Filter, ctx: Context, c: Case, w: World)
    requires Preserves(kit, r, may) && CaseAdmitted(may, ctx, c)
    ensures forall w' :: w' in CaseWorlds(kit, ctx, c, w) ==> r(w, w')
    ensures r(w, RoundsEnd(w, RunRounds(kit, ctx, c, c.steps, w)))
  {
    hide RunRounds;
    hide RoundsWorlds;
    hide RoundsEnd;
    RoundsKeep(kit, r, may, ctx, c, c.steps, w);
  }

  lemma AnythingAdmitted(ctx: Context, c: Case)
    ensures CaseAdmitted(Anything(), ctx, c)
  {
    hide Configured;
  }
}
