/** One action of a step: render its object, wait for its delay, and hand it to
the kube service. */
module Actions {

  import opened Errors
  import opened Objects
  import opened Lifecycle
  import opened CaseTrace
  import opened Reports
  import opened KubeService

  /** Retry.attempts: one unless at least two are configured. */
  function UserAttempts(configured: Option<int>): (n: int)
    ensures n >= 1 && (configured.Some? && configured.value >= 2 ==> n == configured.value)
  {
    if configured.None? || configured.value < 2 then 1 else configured.value
  }

  datatype Prepared = Unrendered(err: Err) | BySelector | Rendered(obj: Obj)

  /** Stands in for the missing object of a kind-and-selector target. */
  const NoObject := Obj("", "", "", "", "", map[], "")

  function Render(env: Env, ctx: Context, name: string, values: Values): (p: Prepared)
    ensures p.Unrendered? ==> p.err != {}
  {
    if name !in ctx.objects then Unrendered({NotInMap})
    else match env.render(ctx.objects[name], name, values)
      case None => Unrendered({NotRendered})
      case Some(o) => Rendered(o)
  }

  function ActionValues(act: Action): Values {
    if act.DoEnsure? then act.ensure.values else map[]
  }

  /** Only logs and exec may name no object. */
  function Prepare(env: Env, ctx: Context, act: Action): (p: Prepared)
    ensures p.Unrendered? ==> p.err != {}
    ensures p.BySelector? <==> (act.DoLogs? || act.DoExec?) && TargetOf(act) == ""
  {
    if (act.DoLogs? || act.DoExec?) && TargetOf(act) == "" then BySelector
    else Render(env, ctx, TargetOf(act), ActionValues(act))
  }

  function DelayOf(act: Action): int {
    match act
    case DoEnsure(s) => s.delay
    case DoPatch(s) => s.delay
    case DoWait(s) => s.delay
    case DoAssert(s) => s.delay
    case DoLogs(s) => s.delay
    case DoExec(s) => s.delay
    case DoDelete(s) => s.delay
  }

  function Delay(env: Env, delay: int, w: World): (World, Err) {
    if delay <= 0 then (w, {}) else (Tick(w), env.context(w.api.clock))
  }

  /** PodTarget.validate: a target without an object needs both kind and selector. */
  predicate Unusable(act: Action) {
    var t := if act.DoLogs? then act.logs.target else if act.DoExec? then act.exec.target
      else TargetRef("", "-", "-");
    t.objectName == "" && (t.kind == "" || t.labelSelector == "")
  }

  function Execute(env: Env, ctx: Context, act: Action, o: Obj, w: World): (World, Err) {
    match act
    case DoEnsure(s) => Ensure(env, w, o, ctx.annotations, true, UserAttempts(s.attempts))
    case DoPatch(s) => if s.patches == [] then (w, {}) else Patch(env, w, o, s.patches, UserAttempts(s.attempts))
    case DoWait(s) => WaitFor(env, w, o, s.conditions, false)
    case DoAssert(s) => Check(env, w, o, s.conditions, UserAttempts(s.attempts))
    case DoLogs(s) => LogsCheck(env, w, s.policy, s.contains)
    case DoExec(s) => Exec(env, w, o, UserAttempts(s.attempts))
    case DoDelete(s) => Delete(env, w, o, s.wait, UserAttempts(s.attempts), ByAction)
  }

  function Perform(env: Env, ctx: Context, act: Action, w: World): (World, Err) {
    var p := Prepare(env, ctx, act);
    if p.Unrendered? then (w, p.err)
    else
      var (w1, e1) := Delay(env, DelayOf(act), w);
      if e1 != {} then (w1, e1)
      else if Unusable(act) then (w1, {NilObject})
      else Execute(env, ctx, act, if p.Rendered? then p.obj else NoObject, w1)
  }

  function KitOf(env: Env): Kit {
    Kit((ctx, act, w) => Perform(env, ctx, act, w), w => Cleanup(env, w))
  }

  lemma KitUnfolds(env: Env, ctx: Context, act: Action, w: World)
    ensures KitOf(env).perform(ctx, act, w) == Perform(env, ctx, act, w)
  {
    hide Perform;
    hide Cleanup;
  }

  lemma KitSweeps(env: Env, w: World)
    ensures KitOf(env).sweep(w) == Cleanup(env, w)
  {
    hide Perform;
    hide Cleanup;
  }

  method ExecuteAction(svc: Service, ctx: Context, act: Action, o: Obj) returns (err: Err)
    requires svc.Valid()
    modifies svc.server, svc.applied
    ensures (svc.World(), err) == Execute(svc.env, ctx, act, o, old(svc.World()))
  {
    hide Lifecycle.Ensure;
    hide Lifecycle.Patch;
    hide Lifecycle.WaitFor;
    hide Lifecycle.Check;
    hide Lifecycle.Exec;
    hide Lifecycle.LogsCheck;
    hide Lifecycle.Delete;
    match act
    case DoEnsure(s) => err := svc.Ensure(o, ctx.annotations, true, UserAttempts(s.attempts));
    case DoPatch(s) =>
      if s.patches == [] {
        return {};
      }
      err := svc.Patch(o, s.patches, UserAttempts(s.attempts));
    case DoWait(s) => err := svc.WaitFor(o, s.conditions, false);
    case DoAssert(s) => err := svc.Check(o, s.conditions, UserAttempts(s.attempts));
    case DoLogs(s) => err := svc.LogsCheck(s.policy, s.contains);
    case DoExec(s) => err := svc.Exec(o, UserAttempts(s.attempts));
    case DoDelete(s) => err := svc.Delete(o, s.wait, UserAttempts(s.attempts), ByAction);
  }

  /** runEnsure to runDelete with RunEnsure to RunExec: the report is failed exactly
      when there is an error. */
  method RunAction(svc: Service, ctx: Context, act: Action) returns (report: ActionReport, err: Err)
    requires svc.Valid()
    modifies svc.server, svc.applied
    ensures (svc.World(), err) == Perform(svc.env, ctx, act, old(svc.World()))
    ensures report == Finished(act, err)
  {
    hide Execute;
    var p := Prepare(svc.env, ctx, act);
    if p.Unrendered? {
      return Finished(act, p.err), p.err;
    }
    err := {};
    if DelayOf(act) > 0 {
      err := svc.env.context(svc.server.clock);
      svc.server.clock := svc.server.clock + 1;
    }
    if err == {} {
      if Unusable(act) {
        err := {NilObject};
      } else {
        err := ExecuteAction(svc, ctx, act, if p.Rendered? then p.obj else NoObject);
      }
    }
    report := Finished(act, err);
  }
}
