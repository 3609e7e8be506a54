/** The resource lifecycle of internal/kube/service.go as functions of the world:
the API server, the applied cache, one attempt of each operation, and the nested
retries around it. Every source of chance is a stream indexed by the clock, so a
lemma over all environments is a lemma over all failure patterns. */
module Lifecycle {

  import opened Errors
  import opened Objects
  import opened Waiting
  import LogPolicies

  /** Whether the API server carried a call out. A rejected write may still have
      landed (a timeout after the write); results that need failed calls to have no
      effect ask for FailuresHaveNoEffect. */
  datatype Outcome = Accepted | Rejected(fault: Fault, landed: bool)

  type Values = map<string, string>

  datatype Env = Env(
    dryRun: bool,
    namespace: string,
    scopes: Scopes,
    judge: Judge,
    patch: (seq<string>, Obj) -> Option<Obj>,
    render: (string, string, Values) -> Option<Obj>,
    api: nat -> Outcome,
    lookup: nat -> Err,
    context: nat -> Err,
    feed: nat -> Feed,
    window: nat -> LogPolicies.Window,
    exec: nat -> Err,
    connect: nat -> Err,
    order: (nat, set<string>) -> seq<string>)

  ghost predicate FailuresHaveNoEffect(env: Env) {
    forall t :: env.api(t).Rejected? ==> !env.api(t).landed
  }

  /** Who asked for a deletion: a delete action, or the sweep after the case. */
  datatype Origin = ByAction | BySweep

  /** The log of what was asked of the API server. An apply is effective when it was
      carried out, even if it was then rejected. Deleted is the result of one whole
      Delete call, retries included. */
  datatype Call =
    | Probed(id: Id, found: bool)
    | Applied(id: Id, sent: Obj, ok: bool, effective: bool)
    | Removed(id: Id, ok: bool)
    | Updated(id: Id, ok: bool)
    | Deleted(id: Id, ok: bool, origin: Origin)

  datatype Api = Api(objects: map<Id, Obj>, clock: nat, audit: seq<Call>)

  datatype World = World(api: Api, applied: map<string, Obj>)

  function Log(a: Api, call: Call): Api {
    a.(clock := a.clock + 1, audit := a.audit + [call])
  }

  // ---- API calls ----

  function Get(env: Env, a: Api, id: Id): (Api, Err) {
    match env.api(a.clock)
    case Rejected(fault, _) => (a.(clock := a.clock + 1), {fault})
    case Accepted => (Log(a, Probed(id, id in a.objects)), if id in a.objects then {} else {NotFound})
  }

  function Apply(env: Env, a: Api, id: Id, o: Obj): (Api, Err) {
    match env.api(a.clock)
    case Rejected(fault, landed) =>
      (Log(if landed then a.(objects := a.objects[id := o]) else a, Applied(id, o, false, landed)), {fault})
    case Accepted => (Log(a.(objects := a.objects[id := o]), Applied(id, o, true, true)), {})
  }

  function Remove(env: Env, a: Api, id: Id): (Api, Err) {
    match env.api(a.clock)
    case Rejected(fault, landed) =>
      (Log(if landed then a.(objects := a.objects - {id}) else a, Removed(id, false)), {fault})
    case Accepted =>
      (Log(a.(objects := a.objects - {id}), Removed(id, true)), if id in a.objects then {} else {NotFound})
  }

  function Update(env: Env, a: Api, id: Id, o: Obj): (Api, Err) {
    match env.api(a.clock)
    case Rejected(fault, landed) =>
      (Log(if landed && id in a.objects then a.(objects := a.objects[id := o]) else a, Updated(id, false)), {fault})
    case Accepted =>
      if id in a.objects then (Log(a.(objects := a.objects[id := o]), Updated(id, true)), {})
      else (Log(a, Updated(id, false)), {NotFound})
  }

  // ---- one attempt ----

  /** What the retry closures share: the world, the object they mutate in place,
      and the results of the attempts so far. */
  datatype Thread = Thread(world: World, obj: Obj, results: seq<Err>)

  datatype Op =
    | EnsureOp(annotations: map<string, string>, toCache: bool)
    | DeleteOp
    | PatchOp(patches: seq<string>)
    | CheckOp(conditions: seq<string>)
    | ExecOp

  function Tick(w: World): World {
    w.(api := w.api.(clock := w.api.clock + 1))
  }

  /** setNamespace: resolve the kind, then default the namespace. */
  function Resolve(env: Env, w: World, o: Obj): (World, Obj, Err) {
    if Untyped(o) then (w, o, {NoGvk})
    else if env.lookup(w.api.clock) != {} then (Tick(w), o, env.lookup(w.api.clock))
    else if ScopeOf(env.scopes, o).Unmapped? then (Tick(w), o, {NoMapping})
    else (Tick(w), Settle(env.scopes, env.namespace, o), {})
  }

  function EnsureOnce(
    env: Env, annotations: map<string, string>, toCache: bool, w: World, o: Obj): (World, Obj, Err)
  {
    var (w1, settled, e1) := Resolve(env, w, o);
    if e1 != {} then (w1, settled, e1)
    else
      var ready := Annotate(settled, annotations);
      var id := IdOf(env.scopes, ready);
      var (a2, e2) := Get(env, w1.api, id);
      if e2 != {} && NotFound !in e2 then (w1.(api := a2), ready, e2)
      else
        var (a3, e3) := Apply(env, a2, id, ready);
        if e3 != {} then (w1.(api := a3), ready, e3)
        else if NotFound in e2 && toCache then
          (World(a3, w1.applied[AppliedKey(ready) := ready]), ready, {})
        else (w1.(api := a3), ready, {})
  }

  function DeleteOnce(env: Env, w: World, o: Obj): (World, Obj, Err) {
    var (w1, settled, e1) := Resolve(env, w, o);
    if e1 != {} then (w1, settled, e1)
    else
      var evicted := w1.applied - {AppliedKey(settled)};
      var (a2, e2) := Remove(env, w1.api, IdOf(env.scopes, settled));
      (World(a2, evicted), settled, if NotFound in e2 then {} else e2)
  }

  /** The conditions of an assert, in order; the first that does not pass decides. */
  function CheckConditions(env: Env, conditions: seq<string>, m: Obj): (e: Err)
    ensures e == {} <==> forall i :: 0 <= i < |conditions| ==> env.judge(conditions[i], m).Pass?
  {
    match JudgeAll(env.judge, conditions, m)
    case Pass => {}
    case Unmet => {ConditionUnmet}
    case Broken(e) => e
  }

  function CheckOnce(env: Env, conditions: seq<string>, w: World, o: Obj): (World, Obj, Err) {
    var (w1, settled, e1) := Resolve(env, w, o);
    if e1 != {} then (w1, settled, e1)
    else
      var id := IdOf(env.scopes, settled);
      var (a2, e2) := Get(env, w1.api, id);
      if e2 != {} || id !in a2.objects then (w1.(api := a2), settled, e2)
      else (w1.(api := a2), settled, CheckConditions(env, conditions, a2.objects[id]))
  }

  /** One read-modify-write of Patch, seen between two other writers; the
      interleaved protocol is OptimisticPatch. */
  function PatchOnce(env: Env, patches: seq<string>, w: World, o: Obj): (World, Obj, Err) {
    var id := IdOf(env.scopes, o);
    var (a1, e1) := Get(env, w.api, id);
    if e1 != {} || id !in a1.objects then (w.(api := a1), o, e1)
    else
      match env.patch(patches, a1.objects[id])
      case None => (w.(api := a1), o, {NotPatched})
      case Some(patched) =>
        var (a2, e2) := Update(env, a1, IdOf(env.scopes, patched), patched);
        (w.(api := a2), o, e2)
  }

  function Once(env: Env, op: Op, w: World, o: Obj): (World, Obj, Err) {
    match op
    case EnsureOp(annotations, toCache) => EnsureOnce(env, annotations, toCache, w, o)
    case DeleteOp => DeleteOnce(env, w, o)
    case PatchOp(patches) => PatchOnce(env, patches, w, o)
    case CheckOp(conditions) => CheckOnce(env, conditions, w, o)
    case ExecOp => (Tick(w), o, env.exec(w.api.clock))
  }

  function Attempt(env: Env, op: Op, t: Thread): (Thread, Err) {
    var (w, o, e) := Once(env, op, t.world, t.obj);
    (Thread(w, o, t.results + [e]), e)
  }

  // ---- nested retries ----

  datatype Retriable = Always | OnKind(kind: Kind)

  datatype Policy = Policy(steps: nat, retriable: Retriable)

  predicate Retries(r: Retriable, e: Err) {
    r.Always? || r.kind in e
  }

  /** retry.OnError nested once per policy, outermost first. */
  function Retry(env: Env, policies: seq<Policy>, op: Op, t: Thread): (Thread, Err)
    decreases |policies|, 1, 0
  {
    if policies == [] then Attempt(env, op, t)
    else Loop(env, policies[0].steps, policies[0].retriable, policies[1..], op, t)
  }

  /** One retry.OnError: zero steps would mean zero calls and a nil result. */
  function Loop(env: Env, steps: nat, retriable: Retriable, inner: seq<Policy>, op: Op, t: Thread): (Thread, Err)
    decreases |inner| + 1, 0, steps
  {
    if steps == 0 then (t, {})
    else
      var (t', e) := Retry(env, inner, op, t);
      if e == {} || !Retries(retriable, e) || steps == 1 then (t', e)
      else Loop(env, steps - 1, retriable, inner, op, t')
  }

  predicate Positive(policies: seq<Policy>) {
    forall i :: 0 <= i < |policies| ==> policies[i].steps >= 1
  }

  function Budget(policies: seq<Policy>): nat {
    if policies == [] then 1 else policies[0].steps * Budget(policies[1..])
  }

  /** Calls made between two thread states, all failing but possibly the last,
      whose result is the overall result. */
  ghost predicate Answered(t: Thread, t': Thread, e: Err, most: nat) {
    && |t.results| < |t'.results| <= |t.results| + most
    && t'.results[..|t.results|] == t.results
    && t'.results[|t'.results| - 1] == e
    && forall i :: |t.results| <= i < |t'.results| - 1 ==> t'.results[i] != {}
  }

  /** The retry contract at any nesting depth: at least one call, at most the
      product of the step counts, no call after a success, and the result is that
      of the last call. */
  lemma {:induction false} RetryContract(env: Env, policies: seq<Policy>, op: Op, t: Thread)
    requires Positive(policies)
    ensures var (t', e) := Retry(env, policies, op, t); Answered(t, t', e, Budget(policies))
    decreases |policies|, 1, 0
  {
    hide Once;
    if policies != [] {
      LoopContract(env, policies[0].steps, policies[0].retriable, policies[1..], op, t);
    }
  }

  lemma {:induction false} LoopContract(
    env: Env, steps: nat, retriable: Retriable, inner: seq<Policy>, op: Op, t: Thread)
    requires Positive(inner) && steps >= 1
    ensures var (t', e) := Loop(env, steps, retriable, inner, op, t);
            Answered(t, t', e, steps * Budget(inner))
    decreases |inner| + 1, 0, steps
  {
    hide Once;
    hide Attempt;
    hide Budget;
    RetryContract(env, inner, op, t);
    var (t1, e1) := Retry(env, inner, op, t);
    if e1 != {} && Retries(retriable, e1) && steps > 1 {
      LoopContract(env, steps - 1, retriable, inner, op, t1);
      var (t2, e2) := Loop(env, steps - 1, retriable, inner, op, t1);
      AnsweredAgain(t, t1, t2, e1, e2, Budget(inner), (steps - 1) * Budget(inner));
      assert steps * Budget(inner) == (steps - 1) * Budget(inner) + Budget(inner);
    } else {
      assert steps * Budget(inner) >= Budget(inner);
    }
  }

  /** Failed calls followed by more calls. */
  lemma AnsweredAgain(t: Thread, t1: Thread, t2: Thread, e1: Err, e2: Err, most: nat, more: nat)
    requires Answered(t, t1, e1, most) && e1 != {} && Answered(t1, t2, e2, more)
    ensures Answered(t, t2, e2, most + more)
  {
    assert t2.results[..|t.results|] == t2.results[..|t1.results|][..|t.results|];
    forall i | |t.results| <= i < |t2.results| - 1 ensures t2.results[i] != {} {
      if i < |t1.results| {
        assert t2.results[i] == t2.results[..|t1.results|][i] == t1.results[i];
      }
    }
  }

  type Claim = Thread -> bool

  /** Every failing attempt keeps P and every succeeding one reaches Q. */
  ghost predicate AttemptTriple(env: Env, op: Op, P: Claim, Q: Claim) {
    forall t {:trigger Attempt(env, op, t)} | P(t) ::
      && (Attempt(env, op, t).1 != {} ==> P(Attempt(env, op, t).0))
      && (Attempt(env, op, t).1 == {} ==> Q(Attempt(env, op, t).0))
  }

  /** What one attempt guarantees, the retried operation guarantees. */
  lemma {:induction false} RetryTriple(env: Env, policies: seq<Policy>, op: Op, t: Thread, P: Claim, Q: Claim)
    requires Positive(policies) && AttemptTriple(env, op, P, Q) && P(t)
    ensures var (t', e) := Retry(env, policies, op, t); (e != {} ==> P(t')) && (e == {} ==> Q(t'))
    decreases |policies|, 1, 0
  {
    hide Once;
    if policies != [] {
      LoopTriple(env, policies[0].steps, policies[0].retriable, policies[1..], op, t, P, Q);
    }
  }

  lemma {:induction false} LoopTriple(
    env: Env, steps: nat, retriable: Retriable, inner: seq<Policy>, op: Op, t: Thread, P: Claim, Q: Claim)
    requires Positive(inner) && steps >= 1 && AttemptTriple(env, op, P, Q) && P(t)
    ensures var (t', e) := Loop(env, steps, retriable, inner, op, t); (e != {} ==> P(t')) && (e == {} ==> Q(t'))
    decreases |inner| + 1, 0, steps
  {
    hide Once;
    hide Attempt;
    RetryTriple(env, inner, op, t, P, Q);
    var (t1, e1) := Retry(env, inner, op, t);
    if e1 != {} && Retries(retriable, e1) && steps > 1 {
      LoopTriple(env, steps - 1, retriable, inner, op, t1, P, Q);
    }
  }

  // ---- the operations ----

  const DefaultSteps: nat := 4

  /** retryBackoff: the configured attempts, but never fewer than one. */
  function Attempts(configured: int): (n: nat)
    ensures n >= 1 && (configured >= 1 ==> n == configured)
  {
    if configured < 1 then 1 else configured
  }

  /** User retry around the server-timeout retry around the service-unavailable retry. */
  function WritePolicies(configured: int): (ps: seq<Policy>)
    ensures Positive(ps)
  {
    [Policy(Attempts(configured), Always),
     Policy(DefaultSteps, OnKind(ServerTimeout)),
     Policy(DefaultSteps, OnKind(ServiceUnavailable))]
  }

  lemma WriteBudget(configured: int)
    ensures Budget(WritePolicies(configured)) == Attempts(configured) * (DefaultSteps * DefaultSteps)
  {
    var ps := WritePolicies(configured);
    assert ps[1..] == [ps[1], ps[2]] && ps[1..][1..] == [ps[2]] && ps[1..][1..][1..] == [];
    assert Budget(ps[1..][1..]) == DefaultSteps;
    assert Budget(ps[1..]) == DefaultSteps * DefaultSteps;
  }

  function PatchPolicies(configured: int): (ps: seq<Policy>)
    ensures Positive(ps)
  {
    [Policy(Attempts(configured), Always), Policy(DefaultSteps, OnKind(Conflict))]
  }

  function CheckPolicies(configured: int): (ps: seq<Policy>)
    ensures Positive(ps)
  {
    [Policy(Attempts(configured), Always)]
  }

  function Start(w: World, o: Obj): Thread {
    Thread(w, o, [])
  }

  function Ensure(
    env: Env, w: World, o: Obj, annotations: map<string, string>, toCache: bool, attempts: int): (World, Err)
  {
    if env.dryRun then (w, {})
    else
      var (t, e) := Retry(env, WritePolicies(attempts), EnsureOp(annotations, toCache), Start(w, o));
      (t.world, e)
  }

  function WaitFor(env: Env, w: World, o: Obj, conditions: seq<string>, onDeletion: bool): (World, Err) {
    if env.dryRun then (w, {})
    else
      var (w1, settled, e) := Resolve(env, w, o);
      if e != {} then (w1, e)
      else (Tick(w1), Wait(env.judge, Query(RefOf(settled), conditions, onDeletion), env.feed(w1.api.clock)))
  }

  /** The identity an operation on o ends up addressing. */
  function Target(env: Env, o: Obj): Id {
    IdOf(env.scopes, Settle(env.scopes, env.namespace, o))
  }

  /** Delete without its optional wait. */
  function DeleteCall(env: Env, w: World, o: Obj, attempts: int, origin: Origin): (World, Err) {
    var (t, e) := Retry(env, WritePolicies(attempts), DeleteOp, Start(w, o));
    (t.world.(api := Log(t.world.api, Deleted(Target(env, o), e == {}, origin))), e)
  }

  function Delete(env: Env, w: World, o: Obj, wait: bool, attempts: int, origin: Origin): (World, Err) {
    if env.dryRun then (w, {})
    else
      var (w1, e) := DeleteCall(env, w, o, attempts, origin);
      if e != {} || !wait then (w1, e)
      else WaitFor(env, w1, o, [], true)
  }

  function Patch(env: Env, w: World, o: Obj, patches: seq<string>, attempts: int): (World, Err) {
    if env.dryRun then (w, {})
    else
      var (w1, settled, e) := Resolve(env, w, o);
      if e != {} then (w1, e)
      else
        var (t, e2) := Retry(env, PatchPolicies(attempts), PatchOp(patches), Start(w1, settled));
        (t.world, e2)
  }

  function Check(env: Env, w: World, o: Obj, conditions: seq<string>, attempts: int): (World, Err) {
    if env.dryRun then (w, {})
    else
      var (t, e) := Retry(env, CheckPolicies(attempts), CheckOp(conditions), Start(w, o));
      (t.world, e)
  }

  function Exec(env: Env, w: World, o: Obj, attempts: int): (World, Err) {
    if env.dryRun then (w, {})
    else
      var (t, e) := Retry(env, CheckPolicies(attempts), ExecOp, Start(w, o));
      (t.world, e)
  }

  function LogsCheck(env: Env, w: World, policy: LogPolicies.Policy, part: string): (World, Err) {
    if env.dryRun then (w, {})
    else (Tick(w), LogPolicies.LogsContains(policy, env.window(w.api.clock), part))
  }

  /** The sweep of Cleanup over its snapshot, in the given order. */
  function Sweep(env: Env, w: World, snapshot: map<string, Obj>, order: seq<string>): (World, Err)
    decreases |order|
  {
    if order == [] then (w, {})
    else if order[0] !in snapshot then Sweep(env, w, snapshot, order[1..])
    else
      var (w1, e1) := Delete(env, w, snapshot[order[0]], false, 1, BySweep);
      var (w2, e2) := Sweep(env, w1, snapshot, order[1..]);
      (w2, e1 + e2)
  }

  function Cleanup(env: Env, w: World): (World, Err) {
    if env.dryRun then (w, {})
    else Sweep(env, w, w.applied, env.order(w.api.clock, w.applied.Keys))
  }

  /** Between one and attempts x 4 x 4 calls, the last of which decides. */
  lemma WriteCallsBounded(env: Env, op: Op, w: World, o: Obj, attempts: int)
    ensures var (t, e) := Retry(env, WritePolicies(attempts), op, Start(w, o));
            && 1 <= |t.results| <= Attempts(attempts) * (DefaultSteps * DefaultSteps)
            && e == t.results[|t.results| - 1]
            && forall i :: 0 <= i < |t.results| - 1 ==> t.results[i] != {}
  {
    hide Once;
    hide Retry;
    RetryContract(env, WritePolicies(attempts), op, Start(w, o));
    WriteBudget(attempts);
  }
}
