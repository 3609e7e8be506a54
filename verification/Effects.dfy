/** What each operation of the kube service does to the cluster and what it reports,
said in terms of the objects, the conditions and the answers themselves. */
module Effects {

  import opened Errors
  import opened Objects
  import opened Lifecycle
  import opened CacheAgreement
  import opened Attempts
  import opened RetryLaws
  import Waiting

  // ---- addressing ----

  predicate Typed(o: Obj) {
    o.group != "" || o.version != "" || o.kind != ""
  }

  /** The namespace an object ends up in. */
  function HomeOf(env: Env, o: Obj): string {
    if env.scopes(o.group, o.kind).Namespaced? && o.ns == "" then env.namespace else o.ns
  }

  /** The identity under which the server knows it. */
  function AddressOf(env: Env, o: Obj): Id {
    Id(o.group, o.kind, if env.scopes(o.group, o.kind).Namespaced? then HomeOf(env, o) else "", o.name)
  }

  /** What an Ensure sends: namespace defaulted, annotations merged, all else as given. */
  function AsSent(env: Env, o: Obj, annotations: map<string, string>): Obj {
    Obj(o.group, o.version, o.kind, HomeOf(env, o), o.name, o.annotations + annotations, o.body)
  }

  function CacheKeyOf(env: Env, o: Obj): string {
    HomeOf(env, o) + "/" + o.kind + "/" + o.name
  }

  lemma AddressIsTarget(env: Env, o: Obj)
    ensures AddressOf(env, o) == Target(env, o)
    ensures CacheKeyOf(env, o) == AppliedKey(Settle(env.scopes, env.namespace, o))
    ensures forall annotations: map<string, string> ::
      AsSent(env, o, annotations) == Annotate(Settle(env.scopes, env.namespace, o), annotations)
  {
  }

  /** Resolution fails for an object without a kind, for a failed lookup and for a kind
      the server does not map, in this order; otherwise it only settles the namespace. */
  lemma ResolveMeans(env: Env, w: World, o: Obj)
    ensures var (w', o', e) := Resolve(env, w, o);
            && w'.api.objects == w.api.objects && w'.api.audit == w.api.audit && w'.applied == w.applied
            && w'.api.clock == w.api.clock + (if Typed(o) then 1 else 0)
            && e == (if !Typed(o) then {NoGvk}
                     else if env.lookup(w.api.clock) != {} then env.lookup(w.api.clock)
                     else if env.scopes(o.group, o.kind).Unmapped? then {NoMapping}
                     else {})
            && o' == if e == {} then o.(ns := HomeOf(env, o)) else o
  {
  }

  /** Kind resolution and every API call succeed. */
  ghost predicate AllAccepted(env: Env, o: Obj) {
    && Typed(o) && !env.scopes(o.group, o.kind).Unmapped?
    && (forall t :: env.lookup(t) == {})
    && (forall t :: env.api(t).Accepted?)
  }

  /** Kind resolution succeeds and every API call is refused with one and the same error. */
  ghost predicate AllRefused(env: Env, o: Obj, fault: Fault) {
    && Typed(o) && !env.scopes(o.group, o.kind).Unmapped?
    && (forall t :: env.lookup(t) == {})
    && (forall t :: env.api(t) == Rejected(fault, false))
  }

  // ---- ensure ----

  /** Mid-Ensure, after failed attempts only. */
  ghost predicate Ensuring(env: Env, w: World, sent: Obj, annotations: map<string, string>, t: Thread) {
    && AsSent(env, t.obj, annotations) == sent
    && t.world.applied == w.applied
    && (t.world.api.objects == w.api.objects || t.world.api.objects == w.api.objects[AddressOf(env, sent) := sent])
    && (FailuresHaveNoEffect(env) ==> t.world.api.objects == w.api.objects)
  }

  ghost predicate Ensured(env: Env, w: World, sent: Obj, toCache: bool, t: Thread) {
    var id, filed := AddressOf(env, sent), w.applied[CacheKeyOf(env, sent) := sent];
    && t.world.api.objects == w.api.objects[id := sent]
    && (t.world.applied == w.applied || (toCache && id !in w.api.objects && t.world.applied == filed))
    && (FailuresHaveNoEffect(env) && toCache && id !in w.api.objects ==> t.world.applied == filed)
  }

  lemma AttemptEnsures(
    env: Env, w: World, sent: Obj, annotations: map<string, string>, toCache: bool, t: Thread)
    requires Ensuring(env, w, sent, annotations, t)
    ensures var (t', e) := Attempt(env, EnsureOp(annotations, toCache), t);
            if e == {} then Ensured(env, w, sent, toCache, t') else Ensuring(env, w, sent, annotations, t')
  {
    hide EnsureOnce;
    hide LandedSince;
    hide FailuresHaveNoEffect;
    EnsureOnceCases(env, annotations, toCache, t.world, t.obj);
    AddressIsTarget(env, t.obj);
    PreparationIdempotent(env.scopes, env.namespace, annotations, t.obj);
    var o' := Attempt(env, EnsureOp(annotations, toCache), t).0.obj;
    assert AsSent(env, o', annotations) == sent by {
      assert t.obj.annotations + annotations + annotations == t.obj.annotations + annotations;
    }
    assert AddressOf(env, sent) == AddressOf(env, t.obj) && CacheKeyOf(env, sent) == CacheKeyOf(env, t.obj);
  }

  /** A successful Ensure leaves exactly the settled and annotated object at its address
      and everything else alone; a failed one does the same or nothing, and nothing if
      rejected calls have no effect. Caching records it only if it is new, and always
      then if rejected calls have no effect. */
  ghost predicate EnsureOutcome(
    env: Env, w: World, o: Obj, annotations: map<string, string>, toCache: bool, w': World, e: Err)
  {
    var id, sent := AddressOf(env, o), AsSent(env, o, annotations);
    var stored, filed := w.api.objects[id := sent], w.applied[CacheKeyOf(env, o) := sent];
    && (e == {} ==> w'.api.objects == stored)
    && (e != {} ==> w'.applied == w.applied && (w'.api.objects == w.api.objects || w'.api.objects == stored))
    && (e != {} && FailuresHaveNoEffect(env) ==> w'.api.objects == w.api.objects)
    && (w'.applied == w.applied || (toCache && id !in w.api.objects && w'.applied == filed))
    && (e == {} && FailuresHaveNoEffect(env) && toCache && id !in w.api.objects ==> w'.applied == filed)
  }

  lemma EnsureMeans(env: Env, w: World, o: Obj, annotations: map<string, string>, toCache: bool, attempts: int)
    requires !env.dryRun
    ensures var (w', e) := Ensure(env, w, o, annotations, toCache, attempts);
            EnsureOutcome(env, w, o, annotations, toCache, w', e)
  {
    hide Retry;
    hide Attempt;
    hide WritePolicies;
    hide FailuresHaveNoEffect;
    var op, sent := EnsureOp(annotations, toCache), AsSent(env, o, annotations);
    var P: Claim := (t: Thread) => Ensuring(env, w, sent, annotations, t);
    var Q: Claim := (t: Thread) => Ensured(env, w, sent, toCache, t);
    forall t {:trigger Attempt(env, op, t)} | P(t)
      ensures (Attempt(env, op, t).1 != {} ==> P(Attempt(env, op, t).0))
           && (Attempt(env, op, t).1 == {} ==> Q(Attempt(env, op, t).0))
    {
      AttemptEnsures(env, w, sent, annotations, toCache, t);
    }
    RetryTriple(env, WritePolicies(attempts), op, Start(w, o), P, Q);
    var (t, e) := Retry(env, WritePolicies(attempts), op, Start(w, o));
    assert if e == {} then Ensured(env, w, sent, toCache, t) else Ensuring(env, w, sent, annotations, t);
    assert AddressOf(env, sent) == AddressOf(env, o) && CacheKeyOf(env, sent) == CacheKeyOf(env, o);
  }

  /** When every call is accepted, Ensure succeeds. */
  lemma EnsureSucceeds(env: Env, w: World, o: Obj, annotations: map<string, string>, toCache: bool, attempts: int)
    requires !env.dryRun && AllAccepted(env, o)
    ensures Ensure(env, w, o, annotations, toCache, attempts).1 == {}
  {
    hide AppliedKey;
    hide Retry;
    var op, t0 := EnsureOp(annotations, toCache), Start(w, o);
    assert Attempt(env, op, t0).1 == {};
    FirstTime(env, WritePolicies(attempts), op, t0, Attempt(env, op, t0).0);
  }

  // ---- delete ----

  ghost predicate Removing(env: Env, w: World, o: Obj, t: Thread) {
    var id, key := AddressOf(env, o), CacheKeyOf(env, o);
    && AddressOf(env, t.obj) == id && CacheKeyOf(env, t.obj) == key
    && (t.world.api.objects == w.api.objects || t.world.api.objects == w.api.objects - {id})
    && (FailuresHaveNoEffect(env) ==> t.world.api.objects == w.api.objects)
    && (t.world.applied == w.applied || t.world.applied == w.applied - {key})
  }

  ghost predicate IsRemoved(env: Env, w: World, o: Obj, t: Thread) {
    && t.world.api.objects == w.api.objects - {AddressOf(env, o)}
    && t.world.applied == w.applied - {CacheKeyOf(env, o)}
  }

  lemma AttemptRemoves(env: Env, w: World, o: Obj, t: Thread)
    requires Removing(env, w, o, t)
    ensures var (t', e) := Attempt(env, DeleteOp, t);
            if e == {} then IsRemoved(env, w, o, t') else Removing(env, w, o, t')
  {
    hide DeleteOnce;
    hide FailuresHaveNoEffect;
    DeleteOnceEvicts(env, t.world, t.obj);
    DeleteOnceRemoves(env, t.world, t.obj);
    AddressIsTarget(env, t.obj);
    AddressIsTarget(env, Attempt(env, DeleteOp, t).0.obj);
    var id, key := AddressOf(env, o), CacheKeyOf(env, o);
    hide AddressOf;
    hide CacheKeyOf;
    hide AppliedKey;
    assert w.api.objects - {id} - {id} == w.api.objects - {id};
    assert w.applied - {key} - {key} == w.applied - {key};
  }

  /** A successful Delete removes its object and its cache entry and nothing else,
      whether the object was there or not; a failed one removes at most these. The log
      ends with its result. */
  ghost predicate DeleteOutcome(env: Env, w: World, o: Obj, origin: Origin, w': World, e: Err) {
    var gone, evicted := w.api.objects - {AddressOf(env, o)}, w.applied - {CacheKeyOf(env, o)};
    && (e == {} ==> w'.api.objects == gone && w'.applied == evicted)
    && (w'.api.objects == w.api.objects || w'.api.objects == gone)
    && (e != {} && FailuresHaveNoEffect(env) ==> w'.api.objects == w.api.objects)
    && (w'.applied == w.applied || w'.applied == evicted)
    && w'.api.audit != []
    && w'.api.audit[|w'.api.audit| - 1] == Deleted(AddressOf(env, o), e == {}, origin)
  }

  lemma DeleteMeans(env: Env, w: World, o: Obj, attempts: int, origin: Origin)
    ensures var (w', e) := DeleteCall(env, w, o, attempts, origin); DeleteOutcome(env, w, o, origin, w', e)
  {
    hide Retry;
    hide Attempt;
    hide WritePolicies;
    hide FailuresHaveNoEffect;
    AddressIsTarget(env, o);
    hide AddressOf;
    hide CacheKeyOf;
    hide Target;
    var P: Claim := (t: Thread) => Removing(env, w, o, t);
    var Q: Claim := (t: Thread) => IsRemoved(env, w, o, t);
    forall t {:trigger Attempt(env, DeleteOp, t)} | P(t)
      ensures (Attempt(env, DeleteOp, t).1 != {} ==> P(Attempt(env, DeleteOp, t).0))
           && (Attempt(env, DeleteOp, t).1 == {} ==> Q(Attempt(env, DeleteOp, t).0))
    {
      AttemptRemoves(env, w, o, t);
    }
    RetryTriple(env, WritePolicies(attempts), DeleteOp, Start(w, o), P, Q);
    var (t, e) := Retry(env, WritePolicies(attempts), DeleteOp, Start(w, o));
    assert if e == {} then IsRemoved(env, w, o, t) else Removing(env, w, o, t);
  }

  /** When every call is accepted, Delete succeeds, also on an object that is not there. */
  lemma DeleteSucceeds(env: Env, w: World, o: Obj, attempts: int, origin: Origin)
    requires AllAccepted(env, o)
    ensures DeleteCall(env, w, o, attempts, origin).1 == {}
  {
    hide AppliedKey;
    hide Retry;
    var t0 := Start(w, o);
    assert Attempt(env, DeleteOp, t0).1 == {};
    FirstTime(env, WritePolicies(attempts), DeleteOp, t0, Attempt(env, DeleteOp, t0).0);
  }

  // ---- patch ----

  /** Mid-Patch, after failed attempts only. */
  ghost predicate Patching(env: Env, w: World, o: Obj, t: Thread) {
    && t.obj == o && t.world.applied == w.applied
    && t.world.api.objects.Keys == w.api.objects.Keys
    && (FailuresHaveNoEffect(env) ==> t.world.api.objects == w.api.objects)
  }

  /** The last call updated the object at the patched object's address with what the
      list made of the one at this address, in the cluster it found. */
  ghost predicate PatchedFrom(
    env: Env, patches: seq<string>, id: Id, before: map<Id, Obj>, w': World)
  {
    && id in before && env.patch(patches, before[id]).Some?
    && var p := env.patch(patches, before[id]).value;
       var at := IdOf(env.scopes, p);
       && at in before && w'.api.objects == before[at := p]
       && w'.api.audit != [] && w'.api.audit[|w'.api.audit| - 1] == Updated(at, true)
  }

  ghost predicate IsPatched(env: Env, patches: seq<string>, w: World, o: Obj, w': World) {
    && w'.applied == w.applied
    && exists before :: PatchedFrom(env, patches, IdOf(env.scopes, o), before, w')
         && before.Keys == w.api.objects.Keys && (FailuresHaveNoEffect(env) ==> before == w.api.objects)
  }

  lemma AttemptPatches(env: Env, patches: seq<string>, w: World, o: Obj, t: Thread)
    requires Patching(env, w, o, t)
    ensures var (t', e) := Attempt(env, PatchOp(patches), t);
            if e == {} then IsPatched(env, patches, w, o, t'.world) else Patching(env, w, o, t')
  {
    hide IdOf;
    var (t', e) := Attempt(env, PatchOp(patches), t);
    assert FailuresHaveNoEffect(env) && env.api(t.world.api.clock + 1).Rejected?
      ==> !env.api(t.world.api.clock + 1).landed;
    if e == {} {
      assert PatchedFrom(env, patches, IdOf(env.scopes, o), t.world.api.objects, t'.world);
    }
  }

  /** A nil patch updated, in its last call, the object with what the patch list makes of
      the one that was there, and changed no other object; a failed one changes nothing
      if rejected calls have no effect. */
  ghost predicate PatchOutcome(env: Env, w: World, o: Obj, patches: seq<string>, w': World, e: Err) {
    && (e == {} ==> exists before ::
          && PatchedFrom(env, patches, AddressOf(env, o), before, w')
          && before.Keys == w.api.objects.Keys
          && (FailuresHaveNoEffect(env) ==> before == w.api.objects))
    && (e != {} && FailuresHaveNoEffect(env) ==> w'.api.objects == w.api.objects)
    && w'.applied == w.applied
  }

  lemma PatchMeans(env: Env, w: World, o: Obj, patches: seq<string>, attempts: int)
    requires !env.dryRun
    ensures var (w', e) := Patch(env, w, o, patches, attempts); PatchOutcome(env, w, o, patches, w', e)
  {
    hide Retry;
    hide Attempt;
    hide PatchPolicies;
    hide FailuresHaveNoEffect;
    ResolveMeans(env, w, o);
    var (w1, settled, e1) := Resolve(env, w, o);
    if e1 == {} {
      assert IdOf(env.scopes, settled) == AddressOf(env, o);
      var op := PatchOp(patches);
      var P: Claim := (t: Thread) => Patching(env, w1, settled, t);
      var Q: Claim := (t: Thread) => IsPatched(env, patches, w1, settled, t.world);
      forall t {:trigger Attempt(env, op, t)} | P(t)
        ensures (Attempt(env, op, t).1 != {} ==> P(Attempt(env, op, t).0))
             && (Attempt(env, op, t).1 == {} ==> Q(Attempt(env, op, t).0))
      {
        AttemptPatches(env, patches, w1, settled, t);
      }
      RetryTriple(env, PatchPolicies(attempts), op, Start(w1, settled), P, Q);
      var (t, e) := Retry(env, PatchPolicies(attempts), op, Start(w1, settled));
      assert if e == {} then IsPatched(env, patches, w1, settled, t.world) else Patching(env, w1, settled, t);
    }
  }

  /** When every call is accepted, a patch is nil exactly when its object is there, the
      list succeeds on it and what it makes of it is there to be updated. */
  lemma PatchNilIff(env: Env, w: World, o: Obj, patches: seq<string>, attempts: int)
    requires !env.dryRun && AllAccepted(env, o)
    ensures var id := AddressOf(env, o);
            Patch(env, w, o, patches, attempts).1 == {} <==>
              && id in w.api.objects && env.patch(patches, w.api.objects[id]).Some?
              && IdOf(env.scopes, env.patch(patches, w.api.objects[id]).value) in w.api.objects
  {
    PatchMeans(env, w, o, patches, attempts);
    ResolveMeans(env, w, o);
    var (w1, settled, e1) := Resolve(env, w, o);
    assert IdOf(env.scopes, settled) == AddressOf(env, o);
    hide IdOf;
    hide Retry;
    hide Resolve;
    var op, t0 := PatchOp(patches), Start(w1, settled);
    var id := AddressOf(env, o);
    if id in w.api.objects && env.patch(patches, w.api.objects[id]).Some?
      && IdOf(env.scopes, env.patch(patches, w.api.objects[id]).value) in w.api.objects
    {
      assert Attempt(env, op, t0).1 == {};
      FirstTime(env, PatchPolicies(attempts), op, t0, Attempt(env, op, t0).0);
    }
  }

  // ---- assert ----

  ghost predicate AllPass(env: Env, conditions: seq<string>, m: Obj) {
    forall i :: 0 <= i < |conditions| ==> env.judge(conditions[i], m).Pass?
  }

  ghost predicate Asserting(env: Env, w: World, o: Obj, t: Thread) {
    AddressOf(env, t.obj) == AddressOf(env, o) && t.world.api.objects == w.api.objects && t.world.applied == w.applied
  }

  lemma AttemptAsserts(env: Env, conditions: seq<string>, w: World, o: Obj, t: Thread)
    requires Asserting(env, w, o, t)
    ensures var (t', e) := Attempt(env, CheckOp(conditions), t);
            && Asserting(env, w, o, t')
            && (e == {} ==> AddressOf(env, o) in w.api.objects
                            && AllPass(env, conditions, w.api.objects[AddressOf(env, o)]))
  {
    ResolveMeans(env, t.world, t.obj);
    hide Resolve;
    var (w1, settled, e1) := Resolve(env, t.world, t.obj);
    if e1 == {} {
      assert IdOf(env.scopes, settled) == AddressOf(env, o);
    }
  }

  /** A nil assert means the object is there and meets every condition; an assert changes
      nothing. */
  ghost predicate CheckOutcome(env: Env, w: World, o: Obj, conditions: seq<string>, w': World, e: Err) {
    && w'.api.objects == w.api.objects && w'.applied == w.applied
    && (e == {} ==> AddressOf(env, o) in w.api.objects
                    && AllPass(env, conditions, w.api.objects[AddressOf(env, o)]))
  }

  lemma CheckMeans(env: Env, w: World, o: Obj, conditions: seq<string>, attempts: int)
    requires !env.dryRun
    ensures var (w', e) := Check(env, w, o, conditions, attempts); CheckOutcome(env, w, o, conditions, w', e)
  {
    hide Retry;
    hide Attempt;
    hide CheckPolicies;
    hide AddressOf;
    var op := CheckOp(conditions);
    var P: Claim := (t: Thread) => Asserting(env, w, o, t);
    var Q: Claim := (t: Thread) => Asserting(env, w, o, t)
      && AddressOf(env, o) in w.api.objects && AllPass(env, conditions, w.api.objects[AddressOf(env, o)]);
    forall t {:trigger Attempt(env, op, t)} | P(t)
      ensures (Attempt(env, op, t).1 != {} ==> P(Attempt(env, op, t).0))
           && (Attempt(env, op, t).1 == {} ==> Q(Attempt(env, op, t).0))
    {
      AttemptAsserts(env, conditions, w, o, t);
    }
    RetryTriple(env, CheckPolicies(attempts), op, Start(w, o), P, Q);
    var (t, e) := Retry(env, CheckPolicies(attempts), op, Start(w, o));
    assert if e == {} then Q(t) else Asserting(env, w, o, t);
  }

  /** The error of a condition that does not pass. */
  function VerdictErr(v: Waiting.Verdict): Err {
    match v
    case Pass => {}
    case Unmet => {ConditionUnmet}
    case Broken(x) => x
  }

  ghost predicate FirstNotPassing(env: Env, conditions: seq<string>, m: Obj, i: nat) {
    && i < |conditions| && !env.judge(conditions[i], m).Pass?
    && forall j :: 0 <= j < i ==> env.judge(conditions[j], m).Pass?
  }

  /** NotFound without the object, nil when every condition passes, and otherwise the
      error of the first that does not. */
  ghost predicate AnswerIs(env: Env, w: World, o: Obj, conditions: seq<string>, e: Err) {
    var id := AddressOf(env, o);
    && (id !in w.api.objects ==> e == {NotFound})
    && (id in w.api.objects && AllPass(env, conditions, w.api.objects[id]) ==> e == {})
    && forall i: nat :: id in w.api.objects && FirstNotPassing(env, conditions, w.api.objects[id], i)
         ==> e == VerdictErr(env.judge(conditions[i], w.api.objects[id]))
  }

  /** When every call is accepted. */
  lemma CheckAnswers(env: Env, w: World, o: Obj, conditions: seq<string>, attempts: int)
    requires !env.dryRun && AllAccepted(env, o)
    ensures AnswerIs(env, w, o, conditions, Check(env, w, o, conditions, attempts).1)
  {
    hide Retry;
    hide Attempt;
    hide CheckPolicies;
    hide AddressOf;
    var op := CheckOp(conditions);
    var P: Claim := (t: Thread) => CheckedSoFar(env, w, o, conditions, t);
    forall t {:trigger Attempt(env, op, t)} | P(t) ensures P(Attempt(env, op, t).0) {
      AttemptAnswers(env, conditions, w, o, t);
    }
    RetryTriple(env, CheckPolicies(attempts), op, Start(w, o), P, P);
    RetryContract(env, CheckPolicies(attempts), op, Start(w, o));
    var (t, e) := Retry(env, CheckPolicies(attempts), op, Start(w, o));
    assert CheckedSoFar(env, w, o, conditions, t);
    assert t.results[|t.results| - 1] == e;
  }

  ghost predicate CheckedSoFar(env: Env, w: World, o: Obj, conditions: seq<string>, t: Thread) {
    && Asserting(env, w, o, t) && t.obj.group == o.group && t.obj.version == o.version && t.obj.kind == o.kind
    && forall i :: 0 <= i < |t.results| ==> AnswerIs(env, w, o, conditions, t.results[i])
  }

  lemma {:induction false} FirstDecides(env: Env, conditions: seq<string>, m: Obj, i: nat)
    requires FirstNotPassing(env, conditions, m, i)
    ensures CheckConditions(env, conditions, m) == VerdictErr(env.judge(conditions[i], m))
    decreases i
  {
    if i > 0 {
      assert conditions[1..][i - 1] == conditions[i];
      assert forall j :: 0 <= j < i - 1 ==> conditions[1..][j] == conditions[j + 1];
      FirstDecides(env, conditions[1..], m, i - 1);
    }
  }

  lemma AttemptAnswers(env: Env, conditions: seq<string>, w: World, o: Obj, t: Thread)
    requires AllAccepted(env, o) && CheckedSoFar(env, w, o, conditions, t)
    ensures CheckedSoFar(env, w, o, conditions, Attempt(env, CheckOp(conditions), t).0)
  {
    hide CheckConditions;
    AttemptAsserts(env, conditions, w, o, t);
    ResolveMeans(env, t.world, t.obj);
    var id := AddressOf(env, o);
    var (t', e) := Attempt(env, CheckOp(conditions), t);
    var settled := Resolve(env, t.world, t.obj).1;
    assert IdOf(env.scopes, settled) == id;
    hide Resolve;
    if id in w.api.objects {
      forall i: nat | FirstNotPassing(env, conditions, w.api.objects[id], i)
        ensures e == VerdictErr(env.judge(conditions[i], w.api.objects[id]))
      {
        FirstDecides(env, conditions, w.api.objects[id], i);
      }
    }
    assert AnswerIs(env, w, o, conditions, e);
  }

  // ---- exec ----

  ghost predicate Executing(env: Env, w: World, o: Obj, t: Thread) {
    && t.obj == o && t.world == w.(api := w.api.(clock := w.api.clock + |t.results|))
    && forall i :: 0 <= i < |t.results| ==> t.results[i] == env.exec(w.api.clock + i)
  }

  lemma AttemptExecutes(env: Env, w: World, o: Obj, t: Thread)
    requires Executing(env, w, o, t)
    ensures Executing(env, w, o, Attempt(env, ExecOp, t).0)
  {
  }

  lemma OneLevelBudget(attempts: int)
    ensures Budget(CheckPolicies(attempts)) == Tries(attempts)
  {
    assert CheckPolicies(attempts)[1..] == [] && Budget([]) == 1;
  }

  /** The command is run until it succeeds or the attempts are used up, what the last run
      returned is returned, and nothing changes. */
  ghost predicate ExecOutcome(env: Env, w: World, attempts: nat, w': World, e: Err) {
    var first, last := w.api.clock, w'.api.clock - 1;
    && w' == w.(api := w.api.(clock := w'.api.clock))
    && first <= last < first + attempts && e == env.exec(last)
    && (forall t :: first <= t < last ==> env.exec(t) != {})
    && (e != {} ==> last == first + attempts - 1)
  }

  lemma ExecMeans(env: Env, w: World, o: Obj, attempts: int)
    requires !env.dryRun
    ensures var (w', e) := Exec(env, w, o, attempts); ExecOutcome(env, w, Tries(attempts), w', e)
  {
    hide Retry;
    hide Attempt;
    hide Budget;
    var policies := CheckPolicies(attempts);
    var P: Claim := (t: Thread) => Executing(env, w, o, t);
    forall t {:trigger Attempt(env, ExecOp, t)} | P(t) ensures P(Attempt(env, ExecOp, t).0) {
      AttemptExecutes(env, w, o, t);
    }
    RetryTriple(env, policies, ExecOp, Start(w, o), P, P);
    RetryContract(env, policies, ExecOp, Start(w, o));
    FailedReadTries(env, ExecOp, w, o, attempts);
    OneLevelBudget(attempts);
    hide CheckPolicies;
    var (t, e) := Retry(env, policies, ExecOp, Start(w, o));
    assert Executing(env, w, o, t);
    var n := |t.results|;
    assert e == t.results[n - 1] == env.exec(w.api.clock + (n - 1));
    forall u | w.api.clock <= u < w.api.clock + n - 1 ensures env.exec(u) != {} {
      assert t.results[u - w.api.clock] == env.exec(w.api.clock + (u - w.api.clock));
    }
  }
}
