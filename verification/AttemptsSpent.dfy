/** The configured attempts are the ones an operation spends, read off the server clock,
which advances once per call. */
module AttemptsSpent {

  import opened Errors
  import opened Objects
  import opened Lifecycle
  import opened RetryLaws
  import opened Effects

  ghost predicate Ticking(env: Env, w: World, o: Obj, t: Thread) {
    && t.obj.group == o.group && t.obj.version == o.version && t.obj.kind == o.kind
    && t.world.api.clock >= w.api.clock + |t.results|
  }

  lemma AttemptTicks(env: Env, op: Op, w: World, o: Obj, t: Thread)
    requires Typed(o) && Ticking(env, w, o, t)
    ensures Ticking(env, w, o, Attempt(env, op, t).0)
  {
    hide IdOf;
    hide AppliedKey;
    hide CheckConditions;
    ResolveMeans(env, t.world, t.obj);
    hide Resolve;
  }

  lemma RetryTicks(env: Env, policies: seq<Policy>, op: Op, w: World, o: Obj)
    requires Typed(o) && Positive(policies)
    ensures Ticking(env, w, o, Retry(env, policies, op, Start(w, o)).0)
  {
    hide Attempt;
    hide Retry;
    hide Typed;
    var P: Claim := (t: Thread) => Ticking(env, w, o, t);
    forall t {:trigger Attempt(env, op, t)} | P(t) ensures P(Attempt(env, op, t).0) {
      AttemptTicks(env, op, w, o, t);
    }
    RetryTriple(env, policies, op, Start(w, o), P, P);
    assert P(Retry(env, policies, op, Start(w, o)).0);
  }

  /** An operation that fails on an object with a kind has made at least as many calls as
      the attempts it was given. */
  lemma FailureSpendsAttempts(
    env: Env, w: World, o: Obj, annotations: map<string, string>, toCache: bool, texts: seq<string>,
    attempts: int, origin: Origin)
    requires !env.dryRun && Typed(o)
    ensures var (w', e) := Ensure(env, w, o, annotations, toCache, attempts);
            e != {} ==> w'.api.clock >= w.api.clock + Tries(attempts)
    ensures var (w', e) := DeleteCall(env, w, o, attempts, origin);
            e != {} ==> w'.api.clock >= w.api.clock + Tries(attempts)
    ensures var (w', e) := Check(env, w, o, texts, attempts);
            e != {} ==> w'.api.clock >= w.api.clock + Tries(attempts)
    ensures var (w', e) := Patch(env, w, o, texts, attempts);
            e != {} && Resolve(env, w, o).2 == {} ==> w'.api.clock >= w.api.clock + Tries(attempts)
  {
    hide Retry;
    hide Target;
    RetryTicks(env, WritePolicies(attempts), EnsureOp(annotations, toCache), w, o);
    FailedWriteTries(env, EnsureOp(annotations, toCache), w, o, attempts);
    RetryTicks(env, WritePolicies(attempts), DeleteOp, w, o);
    FailedWriteTries(env, DeleteOp, w, o, attempts);
    RetryTicks(env, CheckPolicies(attempts), CheckOp(texts), w, o);
    FailedReadTries(env, CheckOp(texts), w, o, attempts);
    ResolveMeans(env, w, o);
    var (w1, settled, e1) := Resolve(env, w, o);
    RetryTicks(env, PatchPolicies(attempts), PatchOp(texts), w1, settled);
    FailedPatchTries(env, PatchOp(texts), w1, settled, attempts);
  }

  // ---- a server that refuses everything ----

  /** Every attempt so far took this many calls and failed with the one fault. */
  ghost predicate Refusing(env: Env, w: World, fault: Fault, calls: nat, o: Obj, t: Thread) {
    && t.obj.group == o.group && t.obj.version == o.version && t.obj.kind == o.kind
    && t.world.api.clock == w.api.clock + calls * |t.results|
    && forall i :: 0 <= i < |t.results| ==> t.results[i] == {fault}
  }

  lemma OneMoreRefusal(calls: nat, n: nat)
    ensures calls * (n + 1) == calls * n + calls
  {
  }

  lemma AttemptRefused(env: Env, op: Op, w: World, fault: Fault, calls: nat, o: Obj, t: Thread)
    requires AllRefused(env, o, fault) && Refusing(env, w, fault, calls, o, t)
    requires !op.ExecOp? && calls == if op.PatchOp? then 1 else 2
    ensures Refusing(env, w, fault, calls, o, Attempt(env, op, t).0)
  {
    hide IdOf;
    hide AppliedKey;
    hide CheckConditions;
    ResolveMeans(env, t.world, t.obj);
    hide Resolve;
    OneMoreRefusal(calls, |t.results|);
    assert env.api(t.world.api.clock) == Rejected(fault, false);
    assert env.api(t.world.api.clock + 1) == Rejected(fault, false);
  }

  lemma RetryRefused(env: Env, policies: seq<Policy>, op: Op, w: World, fault: Fault, calls: nat, o: Obj)
    requires AllRefused(env, o, fault) && Positive(policies)
    requires !op.ExecOp? && calls == if op.PatchOp? then 1 else 2
    ensures var (t, e) := Retry(env, policies, op, Start(w, o)); Refusing(env, w, fault, calls, o, t) && e == {fault}
  {
    hide Attempt;
    hide Retry;
    hide AllRefused;
    var P: Claim := (t: Thread) => Refusing(env, w, fault, calls, o, t);
    forall t {:trigger Attempt(env, op, t)} | P(t) ensures P(Attempt(env, op, t).0) {
      AttemptRefused(env, op, w, fault, calls, o, t);
    }
    RetryTriple(env, policies, op, Start(w, o), P, P);
    RetryContract(env, policies, op, Start(w, o));
    assert P(Retry(env, policies, op, Start(w, o)).0);
  }

  /** Four calls an attempt for a transient error, one for any other. */
  function CallsPerAttempt(fault: Fault, transient: set<Kind>): nat {
    if fault in transient then 4 else 1
  }

  lemma RefusedWriteTries(env: Env, op: Op, w: World, o: Obj, attempts: int, fault: Fault)
    requires AllRefused(env, o, fault) && (op.EnsureOp? || op.DeleteOp?)
    ensures var (t, e) := Retry(env, WritePolicies(attempts), op, Start(w, o));
            && e == {fault}
            && t.world.api.clock
               == w.api.clock + 2 * (CallsPerAttempt(fault, {ServerTimeout, ServiceUnavailable}) * Tries(attempts))
  {
    hide Retry;
    hide AllRefused;
    RetryRefused(env, WritePolicies(attempts), op, w, fault, 2, o);
    FailedWriteTries(env, op, w, o, attempts);
  }

  /** Against a server that refuses every call: what each operation returns, and exactly
      how many calls it makes for its attempts. */
  lemma RefusedOperations(
    env: Env, w: World, o: Obj, annotations: map<string, string>, toCache: bool, texts: seq<string>,
    attempts: int, origin: Origin, fault: Fault)
    requires !env.dryRun && AllRefused(env, o, fault)
    ensures var (w', e) := Ensure(env, w, o, annotations, toCache, attempts);
            && e == {fault}
            && w'.api.clock
               == w.api.clock + 2 * (CallsPerAttempt(fault, {ServerTimeout, ServiceUnavailable}) * Tries(attempts))
    ensures var (w', e) := DeleteCall(env, w, o, attempts, origin);
            && e == {fault}
            && w'.api.clock
               == w.api.clock + 2 * (CallsPerAttempt(fault, {ServerTimeout, ServiceUnavailable}) * Tries(attempts)) + 1
    ensures var (w', e) := Check(env, w, o, texts, attempts);
            e == {fault} && w'.api.clock == w.api.clock + 2 * Tries(attempts)
    ensures var (w', e) := Patch(env, w, o, texts, attempts);
            e == {fault} && w'.api.clock == w.api.clock + 1 + CallsPerAttempt(fault, {Conflict}) * Tries(attempts)
  {
    ResolveMeans(env, w, o);
    var (w1, settled, e1) := Resolve(env, w, o);
    assert e1 == {} && AllRefused(env, settled, fault);
    hide Resolve;
    hide Retry;
    hide Target;
    hide AllRefused;
    RefusedWriteTries(env, EnsureOp(annotations, toCache), w, o, attempts, fault);
    RefusedWriteTries(env, DeleteOp, w, o, attempts, fault);
    RetryRefused(env, CheckPolicies(attempts), CheckOp(texts), w, fault, 2, o);
    FailedReadTries(env, CheckOp(texts), w, o, attempts);
    RetryRefused(env, PatchPolicies(attempts), PatchOp(texts), w1, fault, 1, settled);
    FailedPatchTries(env, PatchOp(texts), w1, settled, attempts);
  }
}
