/** Suites run by the pool: each worker runs its suite, then records the report and
the error in two maps under one mutex, and returns nil whatever the suite did. */
module ParallelRun {

  import opened Errors
  import opened Objects
  import opened Reports
  import opened WorkerPool

  /** What test.Run returned for one directory. */
  datatype Result = Result(report: Option<SuiteReport>, err: Err)

  /** How far the worker of one directory has got. */
  datatype Stage =
    | Running
    | Locked(result: Result)
    | ReportStored(result: Result)
    | ErrorStored(result: Result)
    | Unlocked(result: Result)
    | Ended(result: Result)

  datatype Move =
    | Begin
    | Lock(i: nat, result: Result)
    | StoreReport(i: nat)
    | StoreError(i: nat)
    | Unlock(i: nat)
    | End(i: nat)

  /** stage holds the workers started so far, in discovery order. */
  datatype Engine = Engine(
    group: Group, stage: seq<Stage>, mutex: Option<nat>,
    reports: map<string, SuiteReport>, errs: map<string, Err>)

  const Fresh := Engine(Idle, [], None, map[], map[])

  predicate Allowed(limit: nat, dirs: seq<string>, s: Engine, m: Move) {
    if m.Begin? then Enabled(limit, |dirs|, s.group, Start)
    else m.i < |s.stage| <= |dirs| && match m
      case Lock(i, _) => s.stage[i].Running? && s.mutex.None?
      case StoreReport(i) => s.stage[i].Locked?
      case StoreError(i) => s.stage[i].ReportStored?
      case Unlock(i) => s.stage[i].ErrorStored?
      case End(i) => s.stage[i].Unlocked? && Enabled(limit, |dirs|, s.group, Return(i, {}))
  }

  function Apply(limit: nat, dirs: seq<string>, s: Engine, m: Move): Engine
    requires Allowed(limit, dirs, s, m)
  {
    match m
    case Begin => s.(group := Step(s.group, Start), stage := s.stage + [Running])
    case Lock(i, r) => s.(stage := s.stage[i := Locked(r)], mutex := Some(i))
    case StoreReport(i) =>
      var r := s.stage[i].result;
      s.(stage := s.stage[i := ReportStored(r)],
         reports := if r.report.Some? then s.reports[dirs[i] := r.report.value] else s.reports)
    case StoreError(i) =>
      var r := s.stage[i].result;
      s.(stage := s.stage[i := ErrorStored(r)], errs := if r.err != {} then s.errs[dirs[i] := r.err] else s.errs)
    case Unlock(i) => s.(stage := s.stage[i := Unlocked(s.stage[i].result)], mutex := None)
    case End(i) => s.(group := Step(s.group, Return(i, {})), stage := s.stage[i := Ended(s.stage[i].result)])
  }

  /** The state after an interleaving, if the pool and the mutex allow it. */
  function Play(limit: nat, dirs: seq<string>, moves: seq<Move>): Option<Engine> {
    if moves == [] then Some(Fresh)
    else
      var last := moves[|moves| - 1];
      match Play(limit, dirs, moves[..|moves| - 1])
      case None => None
      case Some(s) => if Allowed(limit, dirs, s, last) then Some(Apply(limit, dirs, s, last)) else None
  }

  // ---- the pool underneath ----

  /** The pool events of an interleaving: suite errors never reach the pool. */
  function PoolEvents(moves: seq<Move>): seq<Event> {
    if moves == [] then []
    else
      var earlier := PoolEvents(moves[..|moves| - 1]);
      match moves[|moves| - 1]
      case Begin => earlier + [Start]
      case End(i) => earlier + [Return(i, {})]
      case _ => earlier
  }

  lemma {:induction false} RefinesPool(limit: nat, dirs: seq<string>, moves: seq<Move>)
    requires Play(limit, dirs, moves).Some?
    ensures Schedule(limit, |dirs|, PoolEvents(moves)) && AllReturnNil(PoolEvents(moves))
    ensures After(PoolEvents(moves)) == Play(limit, dirs, moves).value.group
  {
    if moves != [] {
      var init, m := moves[..|moves| - 1], moves[|moves| - 1];
      RefinesPool(limit, dirs, init);
      var earlier := PoolEvents(init);
      hide Schedule;
      hide AllReturnNil;
      hide After;
      if m.Begin? {
        ScheduleOneMore(limit, |dirs|, earlier, Start);
      } else if m.End? {
        ScheduleOneMore(limit, |dirs|, earlier, Return(m.i, {}));
      }
    }
  }

  lemma ScheduleOneMore(limit: nat, n: nat, events: seq<Event>, ev: Event)
    requires Schedule(limit, n, events) && AllReturnNil(events)
    requires Enabled(limit, n, After(events), ev) && (ev.Return? ==> ev.err == {})
    ensures Schedule(limit, n, events + [ev]) && AllReturnNil(events + [ev])
    ensures After(events + [ev]) == Step(After(events), ev)
  {
    assert (events + [ev])[..|events|] == events;
  }

  /** No interleaving ever gives the pool an error or cancels the context the other
      suites run under, and no more suites than the limit run at once. */
  lemma {:induction false} SuitesNeverAbortEachOther(limit: nat, dirs: seq<string>, moves: seq<Move>)
    requires Play(limit, dirs, moves).Some?
    ensures var g := Play(limit, dirs, moves).value.group;
            g.first == {} && !g.cancelled && Bounded(limit, |dirs|, g) && RunOnce(g)
  {
    RefinesPool(limit, dirs, moves);
    WaitReturnsFirst(PoolEvents(moves));
    PoolInvariant(limit, |dirs|, PoolEvents(moves));
  }

  // ---- what the maps hold ----

  predicate Holding(st: Stage) {
    st.Locked? || st.ReportStored? || st.ErrorStored?
  }

  function At(s: Engine, i: nat): Stage {
    if i < |s.stage| then s.stage[i] else Running
  }

  function StoredReport(st: Stage): Option<SuiteReport> {
    if st.Running? || st.Locked? then None else st.result.report
  }

  function StoredError(st: Stage): Err {
    if st.Running? || st.Locked? || st.ReportStored? then {} else st.result.err
  }

  predicate DistinctDirs(dirs: seq<string>) {
    forall i, j :: 0 <= i < j < |dirs| ==> dirs[i] != dirs[j]
  }

  /** What the maps hold for a directory is what its own worker stored. */
  predicate RecordMatches(dirs: seq<string>, s: Engine, i: nat)
    requires i < |dirs|
  {
    var d, st := dirs[i], At(s, i);
    && (if d in s.reports then StoredReport(st) == Some(s.reports[d]) else StoredReport(st) == None)
    && (if d in s.errs then s.errs[d] != {} && StoredError(st) == s.errs[d] else StoredError(st) == {})
  }

  ghost predicate MapsKept(dirs: seq<string>, s: Engine) {
    && (forall i: nat :: i < |dirs| ==> RecordMatches(dirs, s, i))
    && (forall d :: d in s.reports || d in s.errs ==> d in dirs)
  }

  /** The mutex is held by exactly the worker that is storing. */
  ghost predicate MutexHeld(s: Engine) {
    forall i: nat :: s.mutex == Some(i) <==> i < |s.stage| && Holding(s.stage[i])
  }

  ghost predicate StagesMatch(dirs: seq<string>, s: Engine) {
    && |s.stage| == s.group.next <= |dirs|
    && (forall i: nat :: i in s.group.active <==> i < |s.stage| && !s.stage[i].Ended?)
  }

  lemma MoveKeepsMutex(limit: nat, dirs: seq<string>, s: Engine, m: Move)
    requires Allowed(limit, dirs, s, m) && MutexHeld(s)
    ensures MutexHeld(Apply(limit, dirs, s, m))
  {
  }

  lemma MoveKeepsStages(limit: nat, dirs: seq<string>, s: Engine, m: Move)
    requires Allowed(limit, dirs, s, m) && StagesMatch(dirs, s)
    ensures StagesMatch(dirs, Apply(limit, dirs, s, m))
  {
  }

  lemma MoveKeepsOne(limit: nat, dirs: seq<string>, s: Engine, m: Move, i: nat)
    requires DistinctDirs(dirs) && |s.stage| <= |dirs| && i < |dirs|
    requires Allowed(limit, dirs, s, m) && RecordMatches(dirs, s, i)
    ensures RecordMatches(dirs, Apply(limit, dirs, s, m), i)
  {
    if !m.Begin? && m.i != i {
      assert dirs[m.i] != dirs[i];
    }
  }

  lemma MoveKeepsMaps(limit: nat, dirs: seq<string>, s: Engine, m: Move)
    requires DistinctDirs(dirs) && |s.stage| <= |dirs|
    requires Allowed(limit, dirs, s, m) && MapsKept(dirs, s)
    ensures MapsKept(dirs, Apply(limit, dirs, s, m))
  {
    forall i: nat | i < |dirs| ensures RecordMatches(dirs, Apply(limit, dirs, s, m), i) {
      MoveKeepsOne(limit, dirs, s, m, i);
    }
  }

  /** At every reachable state: mutual exclusion, and stages that match the pool. */
  lemma {:induction false} ProtocolKept(limit: nat, dirs: seq<string>, moves: seq<Move>)
    requires Play(limit, dirs, moves).Some?
    ensures var s := Play(limit, dirs, moves).value; MutexHeld(s) && StagesMatch(dirs, s)
  {
    if moves != [] {
      var init, m := moves[..|moves| - 1], moves[|moves| - 1];
      ProtocolKept(limit, dirs, init);
      var s := Play(limit, dirs, init).value;
      hide MutexHeld;
      hide StagesMatch;
      MoveKeepsMutex(limit, dirs, s, m);
      MoveKeepsStages(limit, dirs, s, m);
    }
  }

  /** And maps that agree with what each directory's own worker has stored so far. */
  lemma {:induction false} RecordsKept(limit: nat, dirs: seq<string>, moves: seq<Move>)
    requires DistinctDirs(dirs) && Play(limit, dirs, moves).Some?
    ensures var s := Play(limit, dirs, moves).value; MutexHeld(s) && StagesMatch(dirs, s) && MapsKept(dirs, s)
  {
    ProtocolKept(limit, dirs, moves);
    if moves != [] {
      var init, m := moves[..|moves| - 1], moves[|moves| - 1];
      RecordsKept(limit, dirs, init);
      var s := Play(limit, dirs, init).value;
      hide MutexHeld;
      hide MapsKept;
      hide StagesMatch;
      assert |s.stage| <= |dirs| by { StagesFit(dirs, s); }
      MoveKeepsMaps(limit, dirs, s, m);
    }
  }

  lemma StagesFit(dirs: seq<string>, s: Engine)
    requires StagesMatch(dirs, s)
    ensures |s.stage| <= |dirs|
  {
  }

  // ---- no deadlock, no livelock ----

  /** The move a worker that is not ended makes next, once it may. */
  function NextMove(st: Stage, i: nat): Move {
    match st
    case Running => Lock(i, Result(None, {}))
    case Locked(_) => StoreReport(i)
    case ReportStored(_) => StoreError(i)
    case ErrorStored(_) => Unlock(i)
    case _ => End(i)
  }

  lemma SomeoneCanMove(limit: nat, dirs: seq<string>, s: Engine)
    requires limit >= 1 && MutexHeld(s) && StagesMatch(dirs, s) && Bounded(limit, |dirs|, s.group)
    ensures Complete(|dirs|, s.group) || exists m :: Allowed(limit, dirs, s, m)
  {
    if s.mutex.Some? {
      var i := s.mutex.value;
      assert Holding(s.stage[i]);
      assert Allowed(limit, dirs, s, NextMove(s.stage[i], i));
    } else if s.group.active != {} {
      var i :| i in s.group.active;
      assert i < |s.stage| && !s.stage[i].Ended? && !Holding(s.stage[i]);
      assert Allowed(limit, dirs, s, NextMove(s.stage[i], i));
    } else if s.group.next < |dirs| {
      assert Allowed(limit, dirs, s, Begin);
    }
  }

  /** From every reachable state the pool and the mutex allow another move until every
      suite has ended. */
  lemma {:induction false} NeverDeadlocks(limit: nat, dirs: seq<string>, moves: seq<Move>)
    requires limit >= 1 && Play(limit, dirs, moves).Some?
    ensures Complete(|dirs|, Play(limit, dirs, moves).value.group)
      || exists m :: Play(limit, dirs, moves + [m]).Some?
  {
    ProtocolKept(limit, dirs, moves);
    SuitesNeverAbortEachOther(limit, dirs, moves);
    hide Play;
    hide MutexHeld;
    hide StagesMatch;
    var s := Play(limit, dirs, moves).value;
    SomeoneCanMove(limit, dirs, s);
    if !Complete(|dirs|, s.group) {
      var m :| Allowed(limit, dirs, s, m);
      PlayOneMore(limit, dirs, moves, m);
    }
  }

  /** How many moves a worker has made. */
  function Rank(st: Stage): nat {
    match st
    case Running => 1
    case Locked(_) => 2
    case ReportStored(_) => 3
    case ErrorStored(_) => 4
    case Unlocked(_) => 5
    case Ended(_) => 6
  }

  function Ranks(stages: seq<Stage>): nat {
    if stages == [] then 0 else Ranks(stages[..|stages| - 1]) + Rank(stages[|stages| - 1])
  }

  lemma {:induction false} RanksBounded(stages: seq<Stage>)
    ensures Ranks(stages) <= 6 * |stages|
    ensures Ranks(stages) == 6 * |stages| <==> forall i :: 0 <= i < |stages| ==> stages[i].Ended?
  {
    if stages != [] {
      RanksBounded(stages[..|stages| - 1]);
      assert stages == stages[..|stages| - 1] + [stages[|stages| - 1]];
    }
  }

  lemma {:induction false} RankMoves(stages: seq<Stage>, i: nat, st: Stage)
    requires i < |stages| && Rank(st) == Rank(stages[i]) + 1
    ensures Ranks(stages[i := st]) == Ranks(stages) + 1
    decreases |stages|
  {
    hide Rank;
    var k := |stages| - 1;
    if i < k {
      RankMoves(stages[..k], i, st);
      assert stages[i := st][..k] == stages[..k][i := st];
    } else {
      assert stages[i := st][..k] == stages[..k];
    }
  }

  lemma MoveRanks(limit: nat, dirs: seq<string>, s: Engine, m: Move)
    requires Allowed(limit, dirs, s, m)
    ensures Ranks(Apply(limit, dirs, s, m).stage) == Ranks(s.stage) + 1
  {
    hide Ranks;
    if m.Begin? {
      assert Ranks(s.stage + [Running]) == Ranks(s.stage) + 1 by { RanksSnoc(s.stage, Running); }
    } else {
      RankMoves(s.stage, m.i, Apply(limit, dirs, s, m).stage[m.i]);
    }
  }

  lemma RanksSnoc(stages: seq<Stage>, st: Stage)
    ensures Ranks(stages + [st]) == Ranks(stages) + Rank(st)
  {
    assert (stages + [st])[..|stages|] == stages;
  }

  lemma {:induction false} MovesCounted(limit: nat, dirs: seq<string>, moves: seq<Move>)
    requires Play(limit, dirs, moves).Some?
    ensures |moves| == Ranks(Play(limit, dirs, moves).value.stage)
  {
    hide Ranks;
    if moves == [] {
      assert Ranks([]) == 0 by { RanksBounded([]); }
    } else {
      var init, m := moves[..|moves| - 1], moves[|moves| - 1];
      MovesCounted(limit, dirs, init);
      MoveRanks(limit, dirs, Play(limit, dirs, init).value, m);
    }
  }

  /** Every interleaving is complete after exactly six moves per suite and none is
      longer, so with NeverDeadlocks every run ends, whatever the scheduler does. */
  lemma {:induction false} SixMovesEach(limit: nat, dirs: seq<string>, moves: seq<Move>)
    requires Play(limit, dirs, moves).Some?
    ensures |moves| <= 6 * |dirs|
    ensures |moves| == 6 * |dirs| <==> Complete(|dirs|, Play(limit, dirs, moves).value.group)
  {
    MovesCounted(limit, dirs, moves);
    ProtocolKept(limit, dirs, moves);
    hide Play;
    var s := Play(limit, dirs, moves).value;
    RanksBounded(s.stage);
    EndedMeansIdle(dirs, s);
  }

  lemma EndedMeansIdle(dirs: seq<string>, s: Engine)
    requires StagesMatch(dirs, s)
    ensures Complete(|dirs|, s.group) <==> |s.stage| == |dirs| && forall i :: 0 <= i < |s.stage| ==> s.stage[i].Ended?
  {
    if Complete(|dirs|, s.group) {
      forall i: nat | i < |s.stage| ensures s.stage[i].Ended? {
        assert i !in s.group.active;
      }
    }
    if forall i :: 0 <= i < |s.stage| ==> s.stage[i].Ended? {
      forall i: nat ensures i !in s.group.active {
      }
    }
  }

  // ---- every complete interleaving ----

  ghost predicate AllEnded(dirs: seq<string>, s: Engine) {
    |s.stage| == |dirs| && forall i :: 0 <= i < |dirs| ==> s.stage[i].Ended?
  }

  /** What each suite returned, in discovery order. */
  function Results(s: Engine): seq<Result>
    requires forall i :: 0 <= i < |s.stage| ==> s.stage[i].Ended?
  {
    seq(|s.stage|, i requires 0 <= i < |s.stage| => s.stage[i].result)
  }

  lemma CompleteMeansEnded(limit: nat, dirs: seq<string>, moves: seq<Move>)
    requires DistinctDirs(dirs) && Play(limit, dirs, moves).Some?
    requires Complete(|dirs|, Play(limit, dirs, moves).value.group)
    ensures AllEnded(dirs, Play(limit, dirs, moves).value)
  {
    RecordsKept(limit, dirs, moves);
    var s := Play(limit, dirs, moves).value;
    forall i: nat | i < |dirs| ensures s.stage[i].Ended? {
      assert i !in s.group.active;
    }
  }

  /** The moves of running one suite after the other. */
  function InTurn(rs: seq<Result>): seq<Move> {
    if rs == [] then []
    else
      var k := |rs| - 1;
      InTurn(rs[..k]) + [Begin, Lock(k, rs[k]), StoreReport(k), StoreError(k), Unlock(k), End(k)]
  }

  lemma PlayOneMore(limit: nat, dirs: seq<string>, moves: seq<Move>, m: Move)
    requires Play(limit, dirs, moves).Some? && Allowed(limit, dirs, Play(limit, dirs, moves).value, m)
    ensures Play(limit, dirs, moves + [m]) == Some(Apply(limit, dirs, Play(limit, dirs, moves).value, m))
  {
    assert (moves + [m])[..|moves|] == moves;
  }

  /** Nothing is under way and the first suites have ended with these results. */
  ghost predicate EndedWith(s: Engine, rs: seq<Result>) {
    && |s.stage| == |rs| == s.group.next && s.group.slots == 0 && s.group.active == {} && s.mutex.None?
    && forall i :: 0 <= i < |rs| ==> s.stage[i] == Ended(rs[i])
  }

  lemma OneSuiteInTurn(limit: nat, dirs: seq<string>, moves: seq<Move>, rs: seq<Result>, r: Result)
    requires limit >= 1 && |rs| < |dirs| && Play(limit, dirs, moves).Some?
    requires EndedWith(Play(limit, dirs, moves).value, rs)
    ensures var k := |rs|;
            var turn := [Begin, Lock(k, r), StoreReport(k), StoreError(k), Unlock(k), End(k)];
            && Play(limit, dirs, moves + turn).Some?
            && EndedWith(Play(limit, dirs, moves + turn).value, rs + [r])
  {
    hide Play;
    var k := |rs|;
    PlayOneMore(limit, dirs, moves, Begin);
    var m1 := moves + [Begin];
    PlayOneMore(limit, dirs, m1, Lock(k, r));
    var m2 := m1 + [Lock(k, r)];
    PlayOneMore(limit, dirs, m2, StoreReport(k));
    var m3 := m2 + [StoreReport(k)];
    PlayOneMore(limit, dirs, m3, StoreError(k));
    var m4 := m3 + [StoreError(k)];
    PlayOneMore(limit, dirs, m4, Unlock(k));
    var m5 := m4 + [Unlock(k)];
    PlayOneMore(limit, dirs, m5, End(k));
    assert m5 + [End(k)] == moves + [Begin, Lock(k, r), StoreReport(k), StoreError(k), Unlock(k), End(k)];
  }

  lemma {:induction false} InTurnPlays(limit: nat, dirs: seq<string>, rs: seq<Result>)
    requires limit >= 1 && |rs| <= |dirs|
    ensures Play(limit, dirs, InTurn(rs)).Some? && EndedWith(Play(limit, dirs, InTurn(rs)).value, rs)
  {
    if rs != [] {
      var k := |rs| - 1;
      InTurnPlays(limit, dirs, rs[..k]);
      OneSuiteInTurn(limit, dirs, InTurn(rs[..k]), rs[..k], rs[k]);
      assert rs[..k] + [rs[k]] == rs;
    }
  }

  lemma SameStagesSameMaps(dirs: seq<string>, s: Engine, t: Engine)
    requires MapsKept(dirs, s) && MapsKept(dirs, t) && s.stage == t.stage
    ensures s.reports == t.reports && s.errs == t.errs
  {
    forall d | d in dirs
      ensures (d in s.reports <==> d in t.reports) && (d in s.reports ==> s.reports[d] == t.reports[d])
      ensures (d in s.errs <==> d in t.errs) && (d in s.errs ==> s.errs[d] == t.errs[d])
    {
      var i: nat :| i < |dirs| && dirs[i] == d;
      assert RecordMatches(dirs, s, i) && RecordMatches(dirs, t, i);
    }
  }

  /** Whatever the limit and the interleaving, a complete run leaves the maps and the
      pool error that running the same suites one after the other would leave. */
  lemma AnyScheduleLikeSequential(limit: nat, dirs: seq<string>, moves: seq<Move>)
    requires DistinctDirs(dirs) && Play(limit, dirs, moves).Some?
    requires Complete(|dirs|, Play(limit, dirs, moves).value.group)
    ensures var s := Play(limit, dirs, moves).value;
            && AllEnded(dirs, s)
            && var sequential := Play(1, dirs, InTurn(Results(s)));
            && sequential.Some? && Complete(|dirs|, sequential.value.group)
            && sequential.value.reports == s.reports && sequential.value.errs == s.errs
            && sequential.value.group.first == s.group.first == {}
  {
    CompleteMeansEnded(limit, dirs, moves);
    var s := Play(limit, dirs, moves).value;
    var rs := Results(s);
    InTurnPlays(1, dirs, rs);
    RecordsKept(limit, dirs, moves);
    RecordsKept(1, dirs, InTurn(rs));
    hide Play;
    hide MapsKept;
    var t := Play(1, dirs, InTurn(rs)).value;
    assert s.stage == t.stage;
    SameStagesSameMaps(dirs, s, t);
    SuitesNeverAbortEachOther(limit, dirs, moves);
    SuitesNeverAbortEachOther(1, dirs, InTurn(rs));
  }
}
