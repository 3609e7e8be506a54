/** What each of the seven actions does, from its entry in the case file to the cluster
and its error. */
module ActionEffects {

  import opened Errors
  import opened Objects
  import opened Lifecycle
  import opened CaseTrace
  import opened Actions
  import opened RetryLaws
  import opened Effects
  import opened AttemptsSpent
  import opened PollingLaws

  // ---- up to the call ----

  /** The action ends before anything is asked of the cluster, or goes ahead with this
      object from this world. */
  datatype Readiness = NotReady(world: World, err: Err) | Ready(world: World, obj: Obj)

  /** The delay of an action: the clock ticks, and a context that has ended is an error. */
  function Waited(env: Env, delay: int, w: World, o: Obj): Readiness {
    if delay <= 0 then Ready(w, o)
    else
      var later := w.(api := w.api.(clock := w.api.clock + 1));
      if env.context(w.api.clock) != {} then NotReady(later, env.context(w.api.clock)) else Ready(later, o)
  }

  /** The declared template of the named object, rendered under that name with the given
      values, then the delay. */
  function Readied(env: Env, ctx: Context, name: string, values: Values, delay: int, w: World): Readiness {
    if name !in ctx.objects then NotReady(w, {NotInMap})
    else match env.render(ctx.objects[name], name, values)
      case None => NotReady(w, {NotRendered})
      case Some(o) => Waited(env, delay, w, o)
  }

  /** For logs and exec: without a name there is no object, and kind and selector must
      both be given. */
  function TargetReadied(env: Env, ctx: Context, target: TargetRef, delay: int, w: World): Readiness {
    if target.objectName != "" then Readied(env, ctx, target.objectName, map[], delay, w)
    else match Waited(env, delay, w, NoObject)
      case NotReady(w1, e) => NotReady(w1, e)
      case Ready(w1, o) =>
        if target.kind == "" || target.labelSelector == "" then NotReady(w1, {NilObject}) else Ready(w1, o)
  }

  /** The attempts an action configures. */
  function Configurable(attempts: Option<int>): nat {
    if attempts.Some? && attempts.value > 1 then attempts.value else 1
  }

  lemma ConfigurableTries(attempts: Option<int>)
    ensures Tries(UserAttempts(attempts)) == Configurable(attempts)
  {
  }

  /** A failure on an object whose kind resolves takes at least as many calls as there are
      attempts. */
  ghost predicate Spends(env: Env, w: World, o: Obj, attempts: nat, w': World, e: Err) {
    && (e != {} && Typed(o) && Resolve(env, w, o).2 == {} ==> w'.api.clock >= w.api.clock + attempts)
  }

  /** Calls of a write against a server that refuses everything with this error. */
  function RefusedCalls(fault: Fault, attempts: nat): nat {
    2 * (CallsPerAttempt(fault, {ServerTimeout, ServiceUnavailable}) * attempts)
  }

  // ---- the actions ----

  lemma EnsureAction(env: Env, ctx: Context, s: EnsureSpec, w: World)
    requires !env.dryRun
    ensures var (w', e) := Perform(env, ctx, DoEnsure(s), w);
            match Readied(env, ctx, s.objectName, s.values, s.delay, w)
            case NotReady(w1, e1) => (w', e) == (w1, e1)
            case Ready(w1, o) =>
              && EnsureOutcome(env, w1, o, ctx.annotations, true, w', e)
              && Spends(env, w1, o, Configurable(s.attempts), w', e)
              && (AllAccepted(env, o) ==> e == {})
              && forall fault :: AllRefused(env, o, fault) ==>
                   e == {fault} && w'.api.clock == w1.api.clock + RefusedCalls(fault, Configurable(s.attempts))
  {
    hide Ensure;
    hide AllAccepted;
    hide AllRefused;
    hide EnsureOutcome;
    hide AddressOf;
    hide Resolve;
    match Readied(env, ctx, s.objectName, s.values, s.delay, w)
    case NotReady(_, _) =>
    case Ready(w1, o) =>
      var n := UserAttempts(s.attempts);
      ConfigurableTries(s.attempts);
      EnsureMeans(env, w1, o, ctx.annotations, true, n);
      if Typed(o) { FailureSpendsAttempts(env, w1, o, ctx.annotations, true, [], n, ByAction); }
      if AllAccepted(env, o) { EnsureSucceeds(env, w1, o, ctx.annotations, true, n); }
      forall fault | AllRefused(env, o, fault)
        ensures Ensure(env, w1, o, ctx.annotations, true, n).1 == {fault}
             && Ensure(env, w1, o, ctx.annotations, true, n).0.api.clock
                == w1.api.clock + RefusedCalls(fault, Configurable(s.attempts))
      {
        RefusedOperations(env, w1, o, ctx.annotations, true, [], n, ByAction, fault);
      }
  }

  lemma DeleteAction(env: Env, ctx: Context, s: DeleteSpec, w: World)
    requires !env.dryRun
    ensures var (w', e) := Perform(env, ctx, DoDelete(s), w);
            match Readied(env, ctx, s.target.objectName, map[], s.delay, w)
            case NotReady(w1, e1) => (w', e) == (w1, e1)
            case Ready(w1, o) => exists w2, e2 ::
              && DeleteOutcome(env, w1, o, ByAction, w2, e2)
              && Spends(env, w1, o, Configurable(s.attempts), w2, e2)
              && (AllAccepted(env, o) ==> e2 == {})
              && (forall fault :: AllRefused(env, o, fault) ==>
                    e2 == {fault} && w2.api.clock == w1.api.clock + RefusedCalls(fault, Configurable(s.attempts)) + 1)
              && w'.api.objects == w2.api.objects && w'.api.audit == w2.api.audit && w'.applied == w2.applied
              && (e2 != {} ==> e == e2)
              && (e2 == {} && !s.wait ==> e == {} && w' == w2)
              && (e2 == {} && s.wait ==>
                    if Resolve(env, w2, o).2 != {} then e == Resolve(env, w2, o).2
                    else WaitAnswer(env.judge, EventRef(env, o), [], true, env.feed(w2.api.clock + 1), e))
  {
    hide Delete;
    hide DeleteCall;
    hide AllAccepted;
    hide AllRefused;
    hide DeleteOutcome;
    hide WaitAnswer;
    hide Resolve;
    match Readied(env, ctx, s.target.objectName, map[], s.delay, w)
    case NotReady(_, _) =>
    case Ready(w1, o) =>
      var n := UserAttempts(s.attempts);
      ConfigurableTries(s.attempts);
      DeleteMeans(env, w1, o, n, ByAction);
      DeleteWaits(env, w1, o, s.wait, n, ByAction);
      if Typed(o) { FailureSpendsAttempts(env, w1, o, map[], true, [], n, ByAction); }
      if AllAccepted(env, o) { DeleteSucceeds(env, w1, o, n, ByAction); }
      var (w2, e2) := DeleteCall(env, w1, o, n, ByAction);
      forall fault | AllRefused(env, o, fault)
        ensures e2 == {fault} && w2.api.clock == w1.api.clock + RefusedCalls(fault, Configurable(s.attempts)) + 1
      {
        RefusedOperations(env, w1, o, map[], true, [], n, ByAction, fault);
      }
      assert Perform(env, ctx, DoDelete(s), w) == Delete(env, w1, o, s.wait, n, ByAction);
  }

  lemma PatchAction(env: Env, ctx: Context, s: PatchSpec, w: World)
    requires !env.dryRun
    ensures var (w', e) := Perform(env, ctx, DoPatch(s), w);
            match Readied(env, ctx, s.target.objectName, map[], s.delay, w)
            case NotReady(w1, e1) => (w', e) == (w1, e1)
            case Ready(w1, o) =>
              if s.patches == [] then (w', e) == (w1, {})
              else
                && PatchOutcome(env, w1, o, s.patches, w', e)
                && Spends(env, w1, o, Configurable(s.attempts), w', e)
                && (AllAccepted(env, o) ==> (e == {} <==> Patchable(env, o, s.patches, w1)))
                && forall fault :: AllRefused(env, o, fault) ==>
                     e == {fault}
                     && w'.api.clock
                        == w1.api.clock + 1 + CallsPerAttempt(fault, {Conflict}) * Configurable(s.attempts)
  {
    hide Patch;
    hide AllAccepted;
    hide AllRefused;
    hide PatchOutcome;
    hide AddressOf;
    hide IdOf;
    hide Resolve;
    match Readied(env, ctx, s.target.objectName, map[], s.delay, w)
    case NotReady(_, _) =>
    case Ready(w1, o) =>
      var n := UserAttempts(s.attempts);
      ConfigurableTries(s.attempts);
      PatchMeans(env, w1, o, s.patches, n);
      if Typed(o) { FailureSpendsAttempts(env, w1, o, map[], true, s.patches, n, ByAction); }
      if AllAccepted(env, o) { PatchNilIff(env, w1, o, s.patches, n); }
      forall fault | AllRefused(env, o, fault)
        ensures Patch(env, w1, o, s.patches, n).1 == {fault}
             && Patch(env, w1, o, s.patches, n).0.api.clock
                == w1.api.clock + 1 + CallsPerAttempt(fault, {Conflict}) * Configurable(s.attempts)
      {
        RefusedOperations(env, w1, o, map[], true, s.patches, n, ByAction, fault);
      }
  }

  /** The object is there, the list succeeds on it, and what it makes of it is there too. */
  ghost predicate Patchable(env: Env, o: Obj, patches: seq<string>, w: World) {
    var id := AddressOf(env, o);
    && id in w.api.objects && env.patch(patches, w.api.objects[id]).Some?
    && IdOf(env.scopes, env.patch(patches, w.api.objects[id]).value) in w.api.objects
  }

  lemma WaitAction(env: Env, ctx: Context, s: WaitSpec, w: World)
    requires !env.dryRun
    ensures var (w', e) := Perform(env, ctx, DoWait(s), w);
            match Readied(env, ctx, s.target.objectName, map[], s.delay, w)
            case NotReady(w1, e1) => (w', e) == (w1, e1)
            case Ready(w1, o) =>
              && w' == w1.(api := w1.api.(clock := w'.api.clock))
              && if Resolve(env, w1, o).2 != {} then e == Resolve(env, w1, o).2
                 else WaitAnswer(env.judge, EventRef(env, o), s.conditions, false, env.feed(w1.api.clock + 1), e)
  {
    hide WaitFor;
    hide WaitAnswer;
    hide Resolve;
    match Readied(env, ctx, s.target.objectName, map[], s.delay, w)
    case NotReady(_, _) =>
    case Ready(w1, o) => WaitForMeans(env, w1, o, s.conditions, false);
  }

  lemma AssertAction(env: Env, ctx: Context, s: AssertSpec, w: World)
    requires !env.dryRun
    ensures var (w', e) := Perform(env, ctx, DoAssert(s), w);
            match Readied(env, ctx, s.target.objectName, map[], s.delay, w)
            case NotReady(w1, e1) => (w', e) == (w1, e1)
            case Ready(w1, o) =>
              && CheckOutcome(env, w1, o, s.conditions, w', e)
              && Spends(env, w1, o, Configurable(s.attempts), w', e)
              && (AllAccepted(env, o) ==> AnswerIs(env, w1, o, s.conditions, e))
              && forall fault :: AllRefused(env, o, fault) ==>
                   e == {fault} && w'.api.clock == w1.api.clock + 2 * Configurable(s.attempts)
  {
    hide Check;
    hide AllAccepted;
    hide AllRefused;
    hide CheckOutcome;
    hide AnswerIs;
    hide AddressOf;
    hide Resolve;
    match Readied(env, ctx, s.target.objectName, map[], s.delay, w)
    case NotReady(_, _) =>
    case Ready(w1, o) =>
      var n := UserAttempts(s.attempts);
      ConfigurableTries(s.attempts);
      CheckMeans(env, w1, o, s.conditions, n);
      if Typed(o) { FailureSpendsAttempts(env, w1, o, map[], true, s.conditions, n, ByAction); }
      if AllAccepted(env, o) { CheckAnswers(env, w1, o, s.conditions, n); }
      forall fault | AllRefused(env, o, fault)
        ensures Check(env, w1, o, s.conditions, n).1 == {fault}
             && Check(env, w1, o, s.conditions, n).0.api.clock == w1.api.clock + 2 * Configurable(s.attempts)
      {
        RefusedOperations(env, w1, o, map[], true, s.conditions, n, ByAction, fault);
      }
  }

  lemma LogsAction(env: Env, ctx: Context, s: LogsSpec, w: World)
    requires !env.dryRun
    ensures var (w', e) := Perform(env, ctx, DoLogs(s), w);
            match TargetReadied(env, ctx, s.target, s.delay, w)
            case NotReady(w1, e1) => (w', e) == (w1, e1)
            case Ready(w1, _) =>
              && w' == w1.(api := w1.api.(clock := w1.api.clock + 1))
              && e == LogAnswer(s.policy, env.window(w1.api.clock), s.contains)
  {
    hide LogsCheck;
    hide LogAnswer;
    match TargetReadied(env, ctx, s.target, s.delay, w)
    case NotReady(_, _) =>
    case Ready(w1, _) => LogsCheckMeans(env, w1, s.policy, s.contains);
  }

  lemma ExecAction(env: Env, ctx: Context, s: ExecSpec, w: World)
    requires !env.dryRun
    ensures var (w', e) := Perform(env, ctx, DoExec(s), w);
            match TargetReadied(env, ctx, s.target, s.delay, w)
            case NotReady(w1, e1) => (w', e) == (w1, e1)
            case Ready(w1, _) => ExecOutcome(env, w1, Configurable(s.attempts), w', e)
  {
    hide Exec;
    hide ExecOutcome;
    match TargetReadied(env, ctx, s.target, s.delay, w)
    case NotReady(_, _) =>
    case Ready(w1, o) =>
      ConfigurableTries(s.attempts);
      ExecMeans(env, w1, o, UserAttempts(s.attempts));
  }
}
