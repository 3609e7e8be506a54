/** Every object that a case applies carries the annotations that trace it to its test,
its case and its step. */
module ObjectTracing {

  import opened Objects
  import opened Lifecycle
  import opened CacheAgreement
  import opened Attempts
  import opened CaseTrace
  import opened TracePreservation
  import opened Actions
  import opened SuiteRun

  /** The annotations name the case, one of its steps or hooks, and whatever the suite
      asked for. */
  ghost predicate Marked(conf: Conf, c: Case, annotations: map<string, string>) {
    && "testing.kube2e.io/case" in annotations && annotations["testing.kube2e.io/case"] == c.name
    && "testing.kube2e.io/step" in annotations
    && (exists st: MaybeStep :: st in c.beforeEach + c.steps + c.afterEach && st.Some?
          && st.value.name == annotations["testing.kube2e.io/step"])
    && forall k :: k in conf.annotations && k != "testing.kube2e.io/case" && k != "testing.kube2e.io/step"
         ==> k in annotations && annotations[k] == conf.annotations[k]
  }

  /** Everything applied in this stretch carries them. */
  ghost predicate AppliesMarked(conf: Conf, c: Case, a: seq<Call>, b: seq<Call>) {
    a <= b && forall i :: |a| <= i < |b| && b[i].Applied? ==> Marked(conf, c, b[i].sent.annotations)
  }

  lemma MarkedTrans(conf: Conf, c: Case, a: seq<Call>, b: seq<Call>, d: seq<Call>)
    requires AppliesMarked(conf, c, a, b) && AppliesMarked(conf, c, b, d)
    ensures AppliesMarked(conf, c, a, d)
  {
    hide Marked;
  }

  /** Nothing is applied in this stretch. */
  ghost predicate AppliesNothing(a: seq<Call>, b: seq<Call>) {
    a <= b && forall i :: |a| <= i < |b| ==> !b[i].Applied?
  }

  /** The log grew by at most these calls, none of them an apply. */
  lemma GrowsWithoutApply(a: seq<Call>, b: seq<Call>, more: seq<Call>)
    requires AppliesNothing(a, b) && forall i :: 0 <= i < |more| ==> !more[i].Applied?
    ensures AppliesNothing(a, b + more)
  {
  }

  lemma DeleteOnceLogs(env: Env, w: World, o: Obj) returns (more: seq<Call>)
    ensures DeleteOnce(env, w, o).0.api.audit == w.api.audit + more
    ensures forall i :: 0 <= i < |more| ==> !more[i].Applied?
  {
    hide AppliedKey;
    hide IdOf;
    ResolveShape(env, w, o);
    hide Resolve;
    more := DeleteOnce(env, w, o).0.api.audit[|w.api.audit|..];
  }

  lemma CheckOnceLogs(env: Env, conditions: seq<string>, w: World, o: Obj) returns (more: seq<Call>)
    ensures CheckOnce(env, conditions, w, o).0.api.audit == w.api.audit + more
    ensures forall i :: 0 <= i < |more| ==> !more[i].Applied?
  {
    hide IdOf;
    hide CheckConditions;
    ResolveShape(env, w, o);
    hide Resolve;
    more := CheckOnce(env, conditions, w, o).0.api.audit[|w.api.audit|..];
  }

  lemma PatchOnceLogs(env: Env, patches: seq<string>, w: World, o: Obj) returns (more: seq<Call>)
    ensures PatchOnce(env, patches, w, o).0.api.audit == w.api.audit + more
    ensures forall i :: 0 <= i < |more| ==> !more[i].Applied?
  {
    hide IdOf;
    more := PatchOnce(env, patches, w, o).0.api.audit[|w.api.audit|..];
  }

  lemma AttemptAppliesNothing(env: Env, op: Op, a: seq<Call>, t: Thread)
    requires !op.EnsureOp? && AppliesNothing(a, t.world.api.audit)
    ensures AppliesNothing(a, Attempt(env, op, t).0.world.api.audit)
  {
    hide DeleteOnce;
    hide CheckOnce;
    hide PatchOnce;
    var more: seq<Call> := [];
    match op {
      case DeleteOp => more := DeleteOnceLogs(env, t.world, t.obj);
      case CheckOp(conditions) => more := CheckOnceLogs(env, conditions, t.world, t.obj);
      case PatchOp(patches) => more := PatchOnceLogs(env, patches, t.world, t.obj);
      case ExecOp => assert t.world.api.audit + [] == t.world.api.audit;
    }
    GrowsWithoutApply(a, t.world.api.audit, more);
  }

  lemma RetryAppliesNothing(env: Env, policies: seq<Policy>, op: Op, w: World, o: Obj)
    requires !op.EnsureOp? && Positive(policies)
    ensures AppliesNothing(w.api.audit, Retry(env, policies, op, Start(w, o)).0.world.api.audit)
  {
    hide Attempt;
    hide Retry;
    assert AppliesNothing(w.api.audit, w.api.audit);
    hide AppliesNothing;
    var P: Claim := (t: Thread) => AppliesNothing(w.api.audit, t.world.api.audit);
    forall t {:trigger Attempt(env, op, t)} | P(t) ensures P(Attempt(env, op, t).0) {
      AttemptAppliesNothing(env, op, w.api.audit, t);
    }
    RetryTriple(env, policies, op, Start(w, o), P, P);
    assert P(Retry(env, policies, op, Start(w, o)).0);
  }

  lemma WaitAppliesNothing(env: Env, w: World, o: Obj, conditions: seq<string>, gone: bool)
    ensures WaitFor(env, w, o, conditions, gone).0.api.audit == w.api.audit
  {
    ResolveShape(env, w, o);
    hide Resolve;
  }

  lemma EnsureAppliesMarked(
    conf: Conf, c: Case, env: Env, w: World, o: Obj, annotations: map<string, string>, attempts: int)
    requires Marked(conf, c, annotations)
    ensures AppliesMarked(conf, c, w.api.audit, Ensure(env, w, o, annotations, true, attempts).0.api.audit)
  {
    hide Retry;
    if !env.dryRun {
      EnsureSendsOneObject(env, w, o, annotations, true, attempts);
      EnsureRetryQuiet(env, w, o, annotations, attempts);
      var sent := Annotate(Settle(env.scopes, env.namespace, o), annotations);
      assert Marked(conf, c, sent.annotations);
    }
  }

  /** The action runs under such annotations. */
  ghost function UnderMarks(conf: Conf, c: Case): Filter {
    (ctx: Context, act: Action) => Marked(conf, c, ctx.annotations)
  }

  lemma PerformAppliesMarked(conf: Conf, c: Case, env: Env, ctx: Context, act: Action, w: World)
    requires Marked(conf, c, ctx.annotations)
    ensures AppliesMarked(conf, c, w.api.audit, Perform(env, ctx, act, w).0.api.audit)
  {
    hide Marked;
    hide Retry;
    hide Resolve;
    hide Ensure;
    hide WaitFor;
    hide Target;
    var p, w1 := Prepare(env, ctx, act), Delay(env, DelayOf(act), w).0;
    var o := if p.Rendered? then p.obj else NoObject;
    match act
    case DoEnsure(s) => EnsureAppliesMarked(conf, c, env, w1, o, ctx.annotations, UserAttempts(s.attempts));
    case DoPatch(s) =>
      ResolveShape(env, w1, o);
      var (w2, settled, _) := Resolve(env, w1, o);
      RetryAppliesNothing(env, PatchPolicies(UserAttempts(s.attempts)), PatchOp(s.patches), w2, settled);
    case DoWait(s) => WaitAppliesNothing(env, w1, o, s.conditions, false);
    case DoAssert(s) =>
      RetryAppliesNothing(env, CheckPolicies(UserAttempts(s.attempts)), CheckOp(s.conditions), w1, o);
    case DoLogs(s) =>
    case DoExec(s) => RetryAppliesNothing(env, CheckPolicies(UserAttempts(s.attempts)), ExecOp, w1, o);
    case DoDelete(s) =>
      RetryAppliesNothing(env, WritePolicies(UserAttempts(s.attempts)), DeleteOp, w1, o);
      WaitAppliesNothing(env, DeleteCall(env, w1, o, UserAttempts(s.attempts), ByAction).0, o, [], true);
  }

  ghost function Marking(conf: Conf, c: Case): Relation {
    (w: World, w': World) => AppliesMarked(conf, c, w.api.audit, w'.api.audit)
  }

  lemma KitAppliesMarked(conf: Conf, c: Case, env: Env)
    ensures Preserves(KitOf(env), Marking(conf, c), UnderMarks(conf, c))
  {
    hide Marked;
    hide Perform;
    var r := Marking(conf, c);
    forall w, w', w'' | r(w, w') && r(w', w'') ensures r(w, w'') {
      MarkedTrans(conf, c, w.api.audit, w'.api.audit, w''.api.audit);
    }
    forall ctx: Context, act, w | Marked(conf, c, ctx.annotations) ensures r(w, KitOf(env).perform(ctx, act, w).0) {
      PerformAppliesMarked(conf, c, env, ctx, act, w);
      KitUnfolds(env, ctx, act, w);
    }
  }

  lemma StepsRunUnderMarks(conf: Conf, c: Case, steps: seq<MaybeStep>)
    requires forall st :: st in steps ==> st in c.beforeEach + c.steps + c.afterEach
    ensures StepsAdmitted(UnderMarks(conf, c), CaseContext(conf, c), steps)
  {
    hide Configured;
    forall i | 0 <= i < |steps| && steps[i].Some?
      ensures StepAdmitted(UnderMarks(conf, c), CaseContext(conf, c), steps[i])
    {
      var st := steps[i].value;
      assert steps[i] in steps;
      assert Marked(conf, c, StepContext(CaseContext(conf, c), st).annotations);
    }
  }

  /** At every point of a case, each object applied since it began carries the name of the
      case, the name of one of its steps, and the annotations of its suite. */
  lemma CaseAppliesMarked(env: Env, conf: Conf, c: Case, w: World, w': World)
    ensures w' in CaseWorlds(KitOf(env), CaseContext(conf, c), c, w)
      ==> AppliesMarked(conf, c, w.api.audit, w'.api.audit)
  {
    hide Preserves;
    hide KitOf;
    hide CaseWorlds;
    hide StepsAdmitted;
    hide AppliesMarked;
    KitAppliesMarked(conf, c, env);
    StepsRunUnderMarks(conf, c, c.beforeEach);
    StepsRunUnderMarks(conf, c, c.steps);
    StepsRunUnderMarks(conf, c, c.afterEach);
    CaseKeeps(KitOf(env), Marking(conf, c), UnderMarks(conf, c), CaseContext(conf, c), c, w);
  }
}
