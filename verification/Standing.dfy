/** What stood in the cluster before a case stays, and stays out of the cache, unless a
delete action removed it. Nothing is assumed of the references a case uses. */
module Standing {

  import opened Objects
  import opened Lifecycle
  import opened CacheAgreement
  import opened CaseTrace
  import opened TracePreservation
  import opened Actions

  /** The delete that was logged may have removed its object, other than by a sweep. */
  ghost predicate Releases(env: Env, call: Call) {
    call.Deleted? && if call.ok then call.origin.ByAction? else !FailuresHaveNoEffect(env)
  }

  /** The objects that delete actions removed or, where rejected calls can have an
      effect, that a failed delete may have removed. */
  ghost function Released(env: Env, audit: seq<Call>, since: nat): set<Id> {
    set i: nat | since <= i < |audit| && Releases(env, audit[i]) :: audit[i].id
  }

  lemma ReleasedIsDropped(env: Env, audit: seq<Call>, since: nat)
    ensures Dropped(audit, since) <= Released(env, audit, since)
    ensures FailuresHaveNoEffect(env) ==> Released(env, audit, since) == Dropped(audit, since)
  {
    hide FailuresHaveNoEffect;
    forall id | id in Dropped(audit, since) ensures id in Released(env, audit, since) {
      var i: nat :| since <= i < |audit| && audit[i].Deleted? && audit[i].ok && audit[i].origin.ByAction?
        && audit[i].id == id;
      assert Releases(env, audit[i]);
    }
  }

  lemma ReleasedSplits(env: Env, a: seq<Call>, b: seq<Call>, since: nat)
    requires since <= |a| && a <= b
    ensures Released(env, b, since) == Released(env, a, since) + Released(env, b, |a|)
  {
    hide Releases;
    assert forall i :: 0 <= i < |a| ==> a[i] == b[i];
  }

  lemma QuietReleasesNothing(env: Env, a: Api, b: Api)
    requires Quiet(a, b)
    ensures Released(env, b.audit, |a.audit|) == {}
  {
  }

  lemma ReleasedByOneCall(env: Env, a: seq<Call>, b: seq<Call>, call: Call)
    requires a <= b && forall i :: |a| <= i < |b| ==> !b[i].Deleted?
    requires call.Deleted?
    ensures Released(env, b + [call], |a|) == if Releases(env, call) then {call.id} else {}
  {
    var c := b + [call];
    assert forall i :: |a| <= i < |b| ==> c[i] == b[i];
    assert c[|b|] == call;
  }

  // ---- safety ----

  /** All of these are there, and none of them is in the cache. */
  ghost predicate Safe(env: Env, kept: set<Id>, w: World) {
    && kept <= w.api.objects.Keys
    && Spares(env, kept, w.applied)
  }

  /** No cached object, as the cleanup would address it, is one of these. */
  ghost predicate Spares(env: Env, kept: set<Id>, applied: map<string, Obj>) {
    forall k :: k in applied ==>
      Settle(env.scopes, env.namespace, applied[k]) == applied[k] && IdOf(env.scopes, applied[k]) !in kept
  }

  ghost predicate Guards(env: Env, w: World, w': World) {
    && w.api.audit <= w'.api.audit
    && forall kept :: Safe(env, kept, w) ==> Safe(env, kept - Released(env, w'.api.audit, |w.api.audit|), w')
  }

  lemma GuardsRefl(env: Env, w: World)
    ensures Guards(env, w, w)
  {
    assert Released(env, w.api.audit, |w.api.audit|) == {};
    assert forall kept: set<Id> :: kept - {} == kept;
  }

  lemma GuardsTrans(env: Env, w: World, w': World, w'': World)
    requires Guards(env, w, w') && Guards(env, w', w'')
    ensures Guards(env, w, w'')
  {
    hide Safe;
    hide Released;
    var first, second := Released(env, w'.api.audit, |w.api.audit|), Released(env, w''.api.audit, |w'.api.audit|);
    ReleasedSplits(env, w'.api.audit, w''.api.audit, |w.api.audit|);
    forall kept | Safe(env, kept, w)
      ensures Safe(env, kept - Released(env, w''.api.audit, |w.api.audit|), w'')
    {
      assert kept - Released(env, w''.api.audit, |w.api.audit|) == kept - first - second;
    }
  }

  /** A stretch without a delete result that keeps everything safe. */
  lemma QuietGuards(env: Env, w: World, w': World)
    requires Quiet(w.api, w'.api) && forall kept :: Safe(env, kept, w) ==> Safe(env, kept, w')
    ensures Guards(env, w, w')
  {
    hide Safe;
    QuietReleasesNothing(env, w.api, w'.api);
    forall kept | Safe(env, kept, w) ensures Safe(env, kept - Released(env, w'.api.audit, |w.api.audit|), w') {
      assert kept - Released(env, w'.api.audit, |w.api.audit|) == kept;
    }
  }

  // ---- ensure ----

  /** An Ensure files only what it saw absent, so nothing that is to be kept. */
  lemma EnsureOnceSafe(env: Env, kept: set<Id>, annotations: map<string, string>, toCache: bool, w: World, o: Obj)
    requires Safe(env, kept, w)
    ensures Safe(env, kept, EnsureOnce(env, annotations, toCache, w, o).0)
  {
    hide EnsureOnce;
    hide AppliedKey;
    hide LandedSince;
    EnsureOnceCases(env, annotations, toCache, w, o);
    var (w', o', e) := EnsureOnce(env, annotations, toCache, w, o);
    if e == {} {
      assert Settle(env.scopes, env.namespace, o') == o';
    }
  }

  lemma EnsureSafe(env: Env, kept: set<Id>, w: World, o: Obj, annotations: map<string, string>, attempts: int)
    requires Safe(env, kept, w)
    ensures Safe(env, kept, Retry(env, WritePolicies(attempts), EnsureOp(annotations, true), Start(w, o)).0.world)
  {
    hide Retry;
    hide Attempt;
    hide Safe;
    hide WritePolicies;
    var op := EnsureOp(annotations, true);
    var P: Claim := (t: Thread) => Safe(env, kept, t.world);
    forall t {:trigger Attempt(env, op, t)} | P(t) ensures P(Attempt(env, op, t).0) {
      EnsureAttemptSafe(env, kept, annotations, t);
    }
    RetryTriple(env, WritePolicies(attempts), op, Start(w, o), P, P);
  }

  lemma EnsureAttemptSafe(env: Env, kept: set<Id>, annotations: map<string, string>, t: Thread)
    requires Safe(env, kept, t.world)
    ensures Safe(env, kept, Attempt(env, EnsureOp(annotations, true), t).0.world)
  {
    hide EnsureOnce;
    hide Safe;
    EnsureOnceSafe(env, kept, annotations, true, t.world, t.obj);
  }

  lemma EnsureGuards(env: Env, w: World, o: Obj, annotations: map<string, string>, attempts: int)
    ensures Guards(env, w, Ensure(env, w, o, annotations, true, attempts).0)
  {
    hide Retry;
    hide Safe;
    hide Guards;
    if env.dryRun {
      GuardsRefl(env, w);
    } else {
      EnsureRetryQuiet(env, w, o, annotations, attempts);
      var w' := Ensure(env, w, o, annotations, true, attempts).0;
      forall kept | Safe(env, kept, w) ensures Safe(env, kept, w') {
        EnsureSafe(env, kept, w, o, annotations, attempts);
      }
      QuietGuards(env, w, w');
    }
  }

  // ---- delete ----

  /** Mid-Delete: all but the target is safe and, if rejected calls have no effect,
      the target too. */
  ghost predicate SafeBut(env: Env, kept: set<Id>, settled: Obj, t: Thread) {
    && Settle(env.scopes, env.namespace, t.obj) == settled
    && Safe(env, kept - {IdOf(env.scopes, settled)}, t.world)
    && (FailuresHaveNoEffect(env) ==> Safe(env, kept, t.world))
  }

  lemma DeleteAttemptSafe(env: Env, kept: set<Id>, settled: Obj, t: Thread)
    requires SafeBut(env, kept, settled, t)
    ensures var (t', e) := Attempt(env, DeleteOp, t);
            && Safe(env, kept - {IdOf(env.scopes, settled)}, t'.world)
            && (e != {} ==> SafeBut(env, kept, settled, t'))
  {
    hide DeleteOnce;
    hide AppliedKey;
    hide FailuresHaveNoEffect;
    DeleteOnceEvicts(env, t.world, t.obj);
    DeleteOnceRemoves(env, t.world, t.obj);
  }

  lemma DeleteRetrySafe(env: Env, kept: set<Id>, w: World, o: Obj, attempts: int)
    requires Safe(env, kept, w)
    ensures var (t, e) := Retry(env, WritePolicies(attempts), DeleteOp, Start(w, o));
            && Safe(env, kept - {Target(env, o)}, t.world)
            && (e != {} && FailuresHaveNoEffect(env) ==> Safe(env, kept, t.world))
  {
    hide Retry;
    hide Attempt;
    hide FailuresHaveNoEffect;
    var settled := Settle(env.scopes, env.namespace, o);
    assert SafeBut(env, kept, settled, Start(w, o));
    hide Safe;
    hide WritePolicies;
    var P: Claim := (t: Thread) => SafeBut(env, kept, settled, t);
    var Q: Claim := (t: Thread) => Safe(env, kept - {IdOf(env.scopes, settled)}, t.world);
    forall t {:trigger Attempt(env, DeleteOp, t)} | P(t)
      ensures (Attempt(env, DeleteOp, t).1 != {} ==> P(Attempt(env, DeleteOp, t).0))
           && (Attempt(env, DeleteOp, t).1 == {} ==> Q(Attempt(env, DeleteOp, t).0))
    {
      DeleteAttemptSafe(env, kept, settled, t);
    }
    RetryTriple(env, WritePolicies(attempts), DeleteOp, Start(w, o), P, Q);
    var (t, e) := Retry(env, WritePolicies(attempts), DeleteOp, Start(w, o));
    assert if e == {} then Q(t) else SafeBut(env, kept, settled, t);
  }

  lemma LoggingKeepsSafe(env: Env, kept: set<Id>, w: World, call: Call)
    requires Safe(env, kept, w)
    ensures Safe(env, kept, w.(api := Log(w.api, call)))
  {
  }

  lemma DeleteCallSafe(env: Env, kept: set<Id>, w: World, o: Obj, attempts: int, origin: Origin)
    requires Safe(env, kept, w)
    ensures Safe(env, kept - {Target(env, o)}, DeleteCall(env, w, o, attempts, origin).0)
  {
    hide Retry;
    hide Safe;
    hide Target;
    DeleteRetrySafe(env, kept, w, o, attempts);
    var (t, e) := Retry(env, WritePolicies(attempts), DeleteOp, Start(w, o));
    LoggingKeepsSafe(env, kept - {Target(env, o)}, t.world, Deleted(Target(env, o), e == {}, origin));
  }

  lemma DeleteCallGuards(env: Env, w: World, o: Obj, attempts: int)
    ensures Guards(env, w, DeleteCall(env, w, o, attempts, ByAction).0)
  {
    hide Retry;
    hide Safe;
    hide Target;
    hide Released;
    hide FailuresHaveNoEffect;
    var (t, e) := Retry(env, WritePolicies(attempts), DeleteOp, Start(w, o));
    var w' := DeleteCall(env, w, o, attempts, ByAction).0;
    var call := Deleted(Target(env, o), e == {}, ByAction);
    DeleteGrowsLog(env, w, o, attempts, ByAction);
    DeleteRetryQuiet(env, w, o, attempts);
    ReleasedByOneCall(env, w.api.audit, t.world.api.audit, call);
    forall kept | Safe(env, kept, w) ensures Safe(env, kept - Released(env, w'.api.audit, |w.api.audit|), w') {
      DeleteRetrySafe(env, kept, w, o, attempts);
      var left := kept - Released(env, w'.api.audit, |w.api.audit|);
      assert left == if Releases(env, call) then kept - {Target(env, o)} else kept;
      LoggingKeepsSafe(env, left, t.world, call);
    }
  }

  lemma DeleteGuards(env: Env, w: World, o: Obj, wait: bool, attempts: int)
    ensures Guards(env, w, Delete(env, w, o, wait, attempts, ByAction).0)
  {
    hide DeleteCall;
    hide WaitFor;
    hide Guards;
    GuardsRefl(env, w);
    DeleteCallGuards(env, w, o, attempts);
    var w1 := DeleteCall(env, w, o, attempts, ByAction).0;
    CalmOperations(env, w1, o, [], 1, true);
    CalmGuards(env, w1, WaitFor(env, w1, o, [], true).0);
    GuardsTrans(env, w, w1, WaitFor(env, w1, o, [], true).0);
  }

  lemma CalmGuards(env: Env, w: World, w': World)
    requires Calm(w, w')
    ensures Guards(env, w, w')
  {
    QuietGuards(env, w, w');
  }

  // ---- the sweep ----

  /** The sweep removes only what is in its snapshot. */
  lemma {:induction false} SweepSafe(
    env: Env, kept: set<Id>, w: World, snapshot: map<string, Obj>, order: seq<string>)
    requires !env.dryRun && Safe(env, kept, w) && Spares(env, kept, snapshot)
    ensures Safe(env, kept, Sweep(env, w, snapshot, order).0)
    ensures w.api.audit <= Sweep(env, w, snapshot, order).0.api.audit
    decreases |order|
  {
    hide DeleteCall;
    hide Safe;
    if order != [] {
      if order[0] !in snapshot {
        SweepSafe(env, kept, w, snapshot, order[1..]);
      } else {
        var o := snapshot[order[0]];
        DeleteCallSafe(env, kept, w, o, 1, BySweep);
        DeleteGrowsLog(env, w, o, 1, BySweep);
        assert kept - {Target(env, o)} == kept;
        SweepSafe(env, kept, DeleteCall(env, w, o, 1, BySweep).0, snapshot, order[1..]);
      }
    }
  }

  lemma CleanupSafe(env: Env, kept: set<Id>, w: World)
    requires Safe(env, kept, w)
    ensures Safe(env, kept, Cleanup(env, w).0) && w.api.audit <= Cleanup(env, w).0.api.audit
  {
    hide Sweep;
    if !env.dryRun {
      SweepSafe(env, kept, w, w.applied, env.order(w.api.clock, w.applied.Keys));
    }
  }

  // ---- a case ----

  lemma ExecuteGuards(env: Env, ctx: Context, act: Action, o: Obj, w: World)
    ensures Guards(env, w, Execute(env, ctx, act, o, w).0)
  {
    hide Guards;
    hide Ensure;
    hide Patch;
    hide Check;
    hide Exec;
    hide WaitFor;
    hide Delete;
    match act
    case DoEnsure(s) => EnsureGuards(env, w, o, ctx.annotations, UserAttempts(s.attempts));
    case DoPatch(s) =>
      GuardsRefl(env, w);
      CalmOperations(env, w, o, s.patches, UserAttempts(s.attempts), false);
      CalmGuards(env, w, Patch(env, w, o, s.patches, UserAttempts(s.attempts)).0);
    case DoWait(s) =>
      CalmOperations(env, w, o, s.conditions, 1, false);
      CalmGuards(env, w, WaitFor(env, w, o, s.conditions, false).0);
    case DoAssert(s) =>
      CalmOperations(env, w, o, s.conditions, UserAttempts(s.attempts), false);
      CalmGuards(env, w, Check(env, w, o, s.conditions, UserAttempts(s.attempts)).0);
    case DoLogs(s) => CalmGuards(env, w, LogsCheck(env, w, s.policy, s.contains).0);
    case DoExec(s) =>
      CalmOperations(env, w, o, [], UserAttempts(s.attempts), false);
      CalmGuards(env, w, Exec(env, w, o, UserAttempts(s.attempts)).0);
    case DoDelete(s) => DeleteGuards(env, w, o, s.wait, UserAttempts(s.attempts));
  }

  lemma PerformGuards(env: Env, ctx: Context, act: Action, w: World)
    ensures Guards(env, w, Perform(env, ctx, act, w).0)
  {
    hide Guards;
    hide Execute;
    GuardsRefl(env, w);
    var p, w1 := Prepare(env, ctx, act), Delay(env, DelayOf(act), w).0;
    CalmGuards(env, w, w1);
    var o := if p.Rendered? then p.obj else NoObject;
    ExecuteGuards(env, ctx, act, o, w1);
    GuardsTrans(env, w, w1, Execute(env, ctx, act, o, w1).0);
  }

  ghost function Guarding(env: Env): Relation {
    (w: World, w': World) => Guards(env, w, w')
  }

  lemma KitGuards(env: Env)
    ensures Preserves(KitOf(env), Guarding(env), Anything())
  {
    hide Guards;
    hide Perform;
    var r := Guarding(env);
    forall w ensures r(w, w) {
      GuardsRefl(env, w);
    }
    forall w, w', w'' | r(w, w') && r(w', w'') ensures r(w, w'') {
      GuardsTrans(env, w, w', w'');
    }
    forall ctx, act, w ensures r(w, KitOf(env).perform(ctx, act, w).0) {
      PerformGuards(env, ctx, act, w);
      KitUnfolds(env, ctx, act, w);
    }
  }

  /** What stood when the case began is there and uncached, but for what was released. */
  ghost predicate StillStanding(env: Env, w: World, w': World) {
    && w.api.audit <= w'.api.audit
    && Safe(env, w.api.objects.Keys - Released(env, w'.api.audit, |w.api.audit|), w')
  }

  /** After every action of a case, before its cleanup and after it. */
  lemma CaseStandsSafe(env: Env, ctx: Context, c: Case, w: World)
    requires w.applied == map[]
    ensures forall w' :: w' in CaseWorlds(KitOf(env), ctx, c, w) ==> StillStanding(env, w, w')
    ensures StillStanding(env, w, RunCase(KitOf(env), ctx, c, w).end)
  {
    hide Preserves;
    hide KitOf;
    hide RunRounds;
    hide RoundsEnd;
    hide CaseWorlds;
    hide CaseAdmitted;
    hide Cleanup;
    hide Released;
    hide RunningReport;
    assert Safe(env, w.api.objects.Keys, w);
    hide Safe;
    KitGuards(env);
    AnythingAdmitted(ctx, c);
    CaseKeeps(KitOf(env), Guarding(env), Anything(), ctx, c, w);
    GuardsRefl(env, w);
    var w1 := RoundsEnd(w, RunRounds(KitOf(env), ctx, c, c.steps, w));
    SweptStandsSafe(env, w, w1);
    KitSweeps(env, w1);
  }

  lemma SweptStandsSafe(env: Env, w: World, w1: World)
    requires StillStanding(env, w, w1)
    ensures StillStanding(env, w, Cleanup(env, w1).0)
  {
    hide Cleanup;
    hide Released;
    var kept := w.api.objects.Keys - Released(env, w1.api.audit, |w.api.audit|);
    CleanupSafe(env, kept, w1);
    ReleasedSplits(env, w1.api.audit, Cleanup(env, w1).0.api.audit, |w.api.audit|);
  }

  /** After every action of a case, and after its cleanup, an object that was there
      before and was not released is there and not in the cache, whatever the steps
      ensure and under whatever keys. */
  lemma StandingObjectsNeverCached(env: Env, ctx: Context, c: Case, w: World, w': World, id: Id)
    requires w.applied == map[] && id in w.api.objects
    ensures w' in CaseWorlds(KitOf(env), ctx, c, w) + [RunCase(KitOf(env), ctx, c, w).end]
        && id !in Released(env, w'.api.audit, |w.api.audit|)
      ==> !Cached(env, w', id) && id in w'.api.objects
  {
    hide RunCase;
    hide KitOf;
    hide CaseWorlds;
    hide Released;
    CaseStandsSafe(env, ctx, c, w);
  }
}
