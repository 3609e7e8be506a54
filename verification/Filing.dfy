/** How the cache is filed, at every point of every case and whatever the server
does, and what that means for the cleanup of a case. */
module Filing {

  import opened Objects
  import opened Lifecycle
  import opened CacheAgreement
  import opened Sweeping
  import opened CaseTrace
  import opened TracePreservation
  import opened Actions
  import opened Conservation

  lemma EnsureOnceFiles(env: Env, annotations: map<string, string>, toCache: bool, w: World, o: Obj)
    requires WellFiled(env, w.applied)
    ensures WellFiled(env, EnsureOnce(env, annotations, toCache, w, o).0.applied)
  {
    hide AppliedKey;
    hide Resolve;
    hide Get;
    hide Apply;
    ResolveShape(env, w, o);
  }

  lemma AttemptFiles(env: Env, op: Op, t: Thread)
    requires (op.EnsureOp? || op.DeleteOp?) && WellFiled(env, t.world.applied)
    ensures WellFiled(env, Attempt(env, op, t).0.world.applied)
  {
    hide EnsureOnce;
    hide DeleteOnce;
    hide AppliedKey;
    match op
    case EnsureOp(annotations, toCache) => EnsureOnceFiles(env, annotations, toCache, t.world, t.obj);
    case DeleteOp => DeleteOnceEvicts(env, t.world, t.obj);
  }

  lemma RetryFiles(env: Env, policies: seq<Policy>, op: Op, w: World, o: Obj)
    requires Positive(policies) && (op.EnsureOp? || op.DeleteOp?) && WellFiled(env, w.applied)
    ensures WellFiled(env, Retry(env, policies, op, Start(w, o)).0.world.applied)
  {
    hide Attempt;
    hide Retry;
    hide WellFiled;
    var P: Claim := (t: Thread) => WellFiled(env, t.world.applied);
    forall t {:trigger Attempt(env, op, t)} | P(t) ensures P(Attempt(env, op, t).0) {
      AttemptFiles(env, op, t);
    }
    RetryTriple(env, policies, op, Start(w, o), P, P);
  }

  lemma ExecuteFiles(env: Env, ctx: Context, act: Action, o: Obj, w: World)
    requires WellFiled(env, w.applied)
    ensures WellFiled(env, Execute(env, ctx, act, o, w).0.applied)
  {
    hide WellFiled;
    hide Retry;
    hide WaitFor;
    hide Patch;
    hide Check;
    hide Exec;
    hide Target;
    match act
    case DoEnsure(s) =>
      RetryFiles(env, WritePolicies(UserAttempts(s.attempts)), EnsureOp(ctx.annotations, true), w, o);
    case DoPatch(s) => CalmOperations(env, w, o, s.patches, UserAttempts(s.attempts), false);
    case DoWait(s) => CalmOperations(env, w, o, s.conditions, 1, false);
    case DoAssert(s) => CalmOperations(env, w, o, s.conditions, UserAttempts(s.attempts), false);
    case DoLogs(s) =>
    case DoExec(s) => CalmOperations(env, w, o, [], UserAttempts(s.attempts), false);
    case DoDelete(s) =>
      RetryFiles(env, WritePolicies(UserAttempts(s.attempts)), DeleteOp, w, o);
      CalmOperations(env, DeleteCall(env, w, o, UserAttempts(s.attempts), ByAction).0, o, [], 1, true);
  }

  ghost function StaysFiled(env: Env): Relation {
    (w: World, w': World) => WellFiled(env, w.applied) ==> WellFiled(env, w'.applied)
  }

  lemma KitFiles(env: Env)
    ensures Preserves(KitOf(env), StaysFiled(env), Anything())
  {
    hide WellFiled;
    hide Execute;
    forall ctx, act, w ensures StaysFiled(env)(w, KitOf(env).perform(ctx, act, w).0) {
      KitUnfolds(env, ctx, act, w);
      if WellFiled(env, w.applied) {
        var p, w1 := Prepare(env, ctx, act), Delay(env, DelayOf(act), w).0;
        ExecuteFiles(env, ctx, act, if p.Rendered? then p.obj else NoObject, w1);
      }
    }
  }

  /** After every action of a case, and before its cleanup, the cache is well filed. */
  lemma CaseStaysFiled(env: Env, ctx: Context, c: Case, w: World)
    requires WellFiled(env, w.applied)
    ensures forall w' :: w' in CaseWorlds(KitOf(env), ctx, c, w) ==> WellFiled(env, w'.applied)
    ensures WellFiled(env, RoundsEnd(w, RunRounds(KitOf(env), ctx, c, c.steps, w)).applied)
  {
    hide WellFiled;
    hide Preserves;
    hide KitOf;
    hide RunRounds;
    hide RoundsEnd;
    hide CaseWorlds;
    hide CaseAdmitted;
    KitFiles(env);
    AnythingAdmitted(ctx, c);
    CaseKeeps(KitOf(env), StaysFiled(env), Anything(), ctx, c, w);
  }

  /** A case ends with an empty cache when it ends without an error, and also when kind
      resolution does not fail, even if deletes fail or fail after having landed. */
  lemma CaseEndsWithEmptyCache(env: Env, ctx: Context, c: Case, w: World)
    requires !env.dryRun && FairOrder(env) && w.applied == map[]
    ensures var run := RunCase(KitOf(env), ctx, c, w);
            run.err == {} || (forall t :: env.lookup(t) == {}) ==> run.end.applied == map[]
  {
    hide RunRounds;
    hide RunningReport;
    hide KitOf;
    hide Cleanup;
    hide CaseWorlds;
    CaseStaysFiled(env, ctx, c, w);
    if c.steps != [] {
      var w1 := RoundsEnd(w, RunRounds(KitOf(env), ctx, c, c.steps, w));
      KitSweeps(env, w1);
      if Cleanup(env, w1).1 == {} || forall t :: env.lookup(t) == {} {
        CleanupEmptiesCache(env, w1);
      }
    }
  }
}
