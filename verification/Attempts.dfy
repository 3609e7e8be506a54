/** What the attempts of one Ensure send, and why the assumptions behind the
cleanup guarantee are needed: without them a run leaks objects although nothing
reports a failure. */
module Attempts {

  import opened Errors
  import opened Objects
  import opened SafeStore
  import opened Lifecycle

  // ---- every attempt sends the same object ----

  /** Since the first attempt, every applied object is this one under its own identity. */
  ghost predicate SendsOnly(env: Env, since: nat, ready: Obj, audit: seq<Call>) {
    forall i :: since <= i < |audit| && audit[i].Applied?
      ==> audit[i].sent == ready && audit[i].id == IdOf(env.scopes, ready)
  }

  lemma ResolveSends(env: Env, w: World, o: Obj)
    ensures var (w', o', e) := Resolve(env, w, o);
            w'.api.audit == w.api.audit && (o' == o || o' == Settle(env.scopes, env.namespace, o))
            && (e == {} ==> o' == Settle(env.scopes, env.namespace, o))
  {
  }

  lemma GetSends(env: Env, a: Api, id: Id)
    ensures var b := Get(env, a, id).0.audit;
            b == a.audit || exists found :: b == a.audit + [Probed(id, found)]
  {
  }

  lemma ApplySends(env: Env, a: Api, id: Id, o: Obj)
    ensures exists ok, effective :: Apply(env, a, id, o).0.audit == a.audit + [Applied(id, o, ok, effective)]
  {
  }

  lemma EnsureOnceSends(env: Env, annotations: map<string, string>, toCache: bool, w: World, o: Obj)
    ensures var (w', o', e) := EnsureOnce(env, annotations, toCache, w, o);
            var settled := Settle(env.scopes, env.namespace, o);
            && w.api.audit <= w'.api.audit
            && SendsOnly(env, |w.api.audit|, Annotate(settled, annotations), w'.api.audit)
            && (o' == o || o' == settled || o' == Annotate(settled, annotations))
  {
    hide AppliedKey;
    hide IdOf;
    hide Annotate;
    hide Resolve;
    hide Get;
    hide Apply;
    hide Settle;
    ResolveSends(env, w, o);
    var (w1, settled, e1) := Resolve(env, w, o);
    if e1 == {} {
      var ready := Annotate(settled, annotations);
      var id := IdOf(env.scopes, ready);
      GetSends(env, w1.api, id);
      var (a2, e2) := Get(env, w1.api, id);
      if e2 == {} || NotFound in e2 {
        ApplySends(env, a2, id, ready);
      }
    }
  }

  ghost predicate Sending(env: Env, annotations: map<string, string>, o: Obj, since: nat, t: Thread) {
    var settled := Settle(env.scopes, env.namespace, o);
    && since <= |t.world.api.audit|
    && SendsOnly(env, since, Annotate(settled, annotations), t.world.api.audit)
    && (t.obj == o || t.obj == settled || t.obj == Annotate(settled, annotations))
  }

  lemma SendingAttempt(env: Env, annotations: map<string, string>, toCache: bool, o: Obj, since: nat, t: Thread)
    requires Sending(env, annotations, o, since, t)
    ensures Sending(env, annotations, o, since, Attempt(env, EnsureOp(annotations, toCache), t).0)
  {
    hide EnsureOnce;
    hide IdOf;
    EnsureOnceSends(env, annotations, toCache, t.world, t.obj);
    PreparationIdempotent(env.scopes, env.namespace, annotations, o);
    var settled := Settle(env.scopes, env.namespace, o);
    assert Annotate(Settle(env.scopes, env.namespace, t.obj), annotations) == Annotate(settled, annotations) by {
      assert Settle(env.scopes, env.namespace, settled) == settled;
    }
  }

  /** However often an Ensure is retried, each apply sends the same settled and
      annotated object to the same identity. */
  lemma EnsureSendsOneObject(
    env: Env, w: World, o: Obj, annotations: map<string, string>, toCache: bool, attempts: int)
    ensures SendsOnly(env, |w.api.audit|, Annotate(Settle(env.scopes, env.namespace, o), annotations),
              Ensure(env, w, o, annotations, toCache, attempts).0.api.audit)
  {
    assert Sending(env, annotations, o, |w.api.audit|, Start(w, o));
    hide Retry;
    hide Attempt;
    hide WritePolicies;
    var op, since := EnsureOp(annotations, toCache), |w.api.audit|;
    var P: Claim := (t: Thread) => Sending(env, annotations, o, since, t);
    forall t {:trigger Attempt(env, op, t)} | P(t) ensures P(Attempt(env, op, t).0) {
      SendingAttempt(env, annotations, toCache, o, since, t);
    }
    RetryTriple(env, WritePolicies(attempts), op, Start(w, o), P, P);
    assert P(Retry(env, WritePolicies(attempts), op, Start(w, o)).0);
  }

  // ---- a rejected write that landed ----

  /** Whether the first apply that took effect was answered with success, if any did. */
  function FirstEffect(calls: seq<Call>): Option<bool> {
    if calls == [] then None
    else
      var last, earlier := calls[|calls| - 1], FirstEffect(calls[..|calls| - 1]);
      if earlier.Some? then earlier else if last.Applied? && last.effective then Some(last.ok) else None
  }

  lemma FirstEffectSnoc(audit: seq<Call>, since: nat, call: Call)
    requires since <= |audit|
    ensures var earlier := FirstEffect(audit[since..]);
            FirstEffect((audit + [call])[since..])
            == if earlier.Some? then earlier
               else if call.Applied? && call.effective then Some(call.ok) else None
  {
    var grown := (audit + [call])[since..];
    assert grown == audit[since..] + [call];
    assert grown[..|grown| - 1] == audit[since..];
  }

  /** An object that was absent and unfiled: as long as no apply took effect it stays
      so; after a first effective apply that succeeded it is present and filed; after
      one that was rejected it is present and unfiled. */
  ghost predicate Traced(id: Id, key: string, since: nat, w: World) {
    && since <= |w.api.audit|
    && match FirstEffect(w.api.audit[since..])
       case None => id !in w.api.objects && key !in w.applied
       case Some(true) => id in w.api.objects && key in w.applied
       case Some(false) => id in w.api.objects && key !in w.applied
  }

  lemma ProbeTraced(env: Env, id: Id, key: string, since: nat, w: World)
    requires Traced(id, key, since, w)
    ensures var (a, e) := Get(env, w.api, id);
            && Traced(id, key, since, w.(api := a))
            && FirstEffect(a.audit[since..]) == FirstEffect(w.api.audit[since..])
            && (e == {} || NotFound in e ==> (NotFound in e <==> id !in w.api.objects))
  {
    hide FirstEffect;
    FirstEffectSnoc(w.api.audit, since, Probed(id, id in w.api.objects));
  }

  lemma ApplyTraced(env: Env, id: Id, key: string, since: nat, w: World, o: Obj)
    requires Traced(id, key, since, w) && FirstEffect(w.api.audit[since..]) != Some(true)
    ensures var (a, e) := Apply(env, w.api, id, o);
            var filed := if e == {} && id !in w.api.objects then w.applied[key := o] else w.applied;
            && Traced(id, key, since, World(a, filed))
            && (e != {} ==> FirstEffect(a.audit[since..]) != Some(true))
  {
    hide FirstEffect;
    var answer := env.api(w.api.clock);
    FirstEffectSnoc(w.api.audit, since, Applied(id, o, answer.Accepted?, answer.Accepted? || answer.landed));
  }

  /** Mid-Ensure, after failed attempts only. */
  ghost predicate Tracing(env: Env, settled: Obj, since: nat, t: Thread) {
    && RefOf(Settle(env.scopes, env.namespace, t.obj)) == RefOf(settled)
    && Traced(IdOf(env.scopes, settled), AppliedKey(settled), since, t.world)
    && FirstEffect(t.world.api.audit[since..]) != Some(true)
  }

  lemma EnsureOnceTraced(
    env: Env, annotations: map<string, string>, settled: Obj, since: nat, w: World, o: Obj)
    requires Tracing(env, settled, since, Thread(w, o, []))
    ensures var (w', o', e) := EnsureOnce(env, annotations, true, w, o);
            && RefOf(Settle(env.scopes, env.namespace, o')) == RefOf(settled)
            && Traced(IdOf(env.scopes, settled), AppliedKey(settled), since, w')
            && (e != {} ==> FirstEffect(w'.api.audit[since..]) != Some(true))
  {
    hide Resolve;
    hide Get;
    hide Apply;
    hide FirstEffect;
    ResolveTraced(env, w, o);
    var (w1, near, e1) := Resolve(env, w, o);
    var id, key := IdOf(env.scopes, settled), AppliedKey(settled);
    assert Traced(id, key, since, w1);
    if e1 == {} {
      var ready := Annotate(near, annotations);
      assert IdOf(env.scopes, ready) == id && AppliedKey(ready) == key;
      hide AppliedKey;
      hide IdOf;
      ProbeTraced(env, id, key, since, w1);
      var (a2, e2) := Get(env, w1.api, id);
      ProbeKeepsObjects(env, w1.api, id);
      if e2 == {} || NotFound in e2 {
        ApplyTraced(env, id, key, since, w1.(api := a2), ready);
      }
    }
  }

  lemma ResolveTraced(env: Env, w: World, o: Obj)
    ensures var (w', o', e) := Resolve(env, w, o);
            && w'.api.audit == w.api.audit && w'.api.objects == w.api.objects && w'.applied == w.applied
            && Settle(env.scopes, env.namespace, o') == Settle(env.scopes, env.namespace, o)
            && (e == {} ==> o' == Settle(env.scopes, env.namespace, o))
  {
  }

  lemma ProbeKeepsObjects(env: Env, a: Api, id: Id)
    ensures Get(env, a, id).0.objects == a.objects
  {
  }

  lemma TracingAttempt(env: Env, annotations: map<string, string>, settled: Obj, since: nat, t: Thread)
    requires Tracing(env, settled, since, t)
    ensures var (t', e) := Attempt(env, EnsureOp(annotations, true), t);
            && Traced(IdOf(env.scopes, settled), AppliedKey(settled), since, t'.world)
            && (e != {} ==> Tracing(env, settled, since, t'))
  {
    hide EnsureOnce;
    hide Traced;
    EnsureOnceTraced(env, annotations, settled, since, t.world, t.obj);
  }

  /** A whole Ensure of an object that was absent and unfiled, with any annotations and
      any number of attempts, leaves it present but unfiled, never to be swept, exactly
      when the first apply that took effect was a rejected one. */
  lemma EnsureLeaksIff(env: Env, w: World, o: Obj, annotations: map<string, string>, attempts: int)
    requires Target(env, o) !in w.api.objects
    requires AppliedKey(Settle(env.scopes, env.namespace, o)) !in w.applied
    ensures var w' := Ensure(env, w, o, annotations, true, attempts).0;
            (Target(env, o) in w'.api.objects && AppliedKey(Settle(env.scopes, env.namespace, o)) !in w'.applied)
            <==> |w.api.audit| <= |w'.api.audit| && FirstEffect(w'.api.audit[|w.api.audit|..]) == Some(false)
  {
    var settled, since := Settle(env.scopes, env.namespace, o), |w.api.audit|;
    assert w.api.audit[since..] == [];
    assert Tracing(env, settled, since, Start(w, o));
    hide Retry;
    hide Attempt;
    hide WritePolicies;
    hide FirstEffect;
    hide AppliedKey;
    var op := EnsureOp(annotations, true);
    var P: Claim := (t: Thread) => Tracing(env, settled, since, t);
    var Q: Claim := (t: Thread) => Traced(IdOf(env.scopes, settled), AppliedKey(settled), since, t.world);
    forall t {:trigger Attempt(env, op, t)} | P(t)
      ensures (Attempt(env, op, t).1 != {} ==> P(Attempt(env, op, t).0))
           && (Attempt(env, op, t).1 == {} ==> Q(Attempt(env, op, t).0))
    {
      TracingAttempt(env, annotations, settled, since, t);
    }
    RetryTriple(env, WritePolicies(attempts), op, Start(w, o), P, Q);
    var (t, e) := Retry(env, WritePolicies(attempts), op, Start(w, o));
    assert Traced(IdOf(env.scopes, settled), AppliedKey(settled), since, t.world);
  }

  /** A rejection that the service-unavailable retry ignores and the server-timeout
      retry repeats, then a success. */
  lemma RetriedOnce(env: Env, op: Op, t0: Thread, t1: Thread, t2: Thread)
    requires Attempt(env, op, t0) == (t1, {ServerTimeout}) && Attempt(env, op, t1) == (t2, {})
    ensures Retry(env, WritePolicies(1), op, t0) == (t2, {})
  {
    hide Attempt;
    var ps := WritePolicies(1);
    var mid, inner := ps[1..], ps[1..][1..];
    assert inner == [Policy(DefaultSteps, OnKind(ServiceUnavailable))] && inner[1..] == [];
    assert Loop(env, DefaultSteps, OnKind(ServiceUnavailable), [], op, t0) == (t1, {ServerTimeout});
    assert Loop(env, DefaultSteps, OnKind(ServiceUnavailable), [], op, t1) == (t2, {});
    assert Retry(env, inner, op, t0) == (t1, {ServerTimeout});
    assert Retry(env, inner, op, t1) == (t2, {});
    assert Retry(env, mid, op, t0) == (t2, {}) by {
      assert Loop(env, DefaultSteps, OnKind(ServerTimeout), inner, op, t0)
          == Loop(env, DefaultSteps - 1, OnKind(ServerTimeout), inner, op, t1);
    }
  }

  /** A success at the first attempt. */
  lemma {:induction false} FirstTime(env: Env, policies: seq<Policy>, op: Op, t0: Thread, t1: Thread)
    requires Positive(policies) && Attempt(env, op, t0) == (t1, {})
    ensures Retry(env, policies, op, t0) == (t1, {})
    decreases |policies|
  {
    hide Attempt;
    if policies != [] {
      FirstTime(env, policies[1..], op, t0, t1);
    }
  }

  /** An object that the settling of its kind accepts as it is. */
  predicate Plain(env: Env, o: Obj) {
    !Untyped(o) && ScopeOf(env.scopes, o).Namespaced? && o.ns != ""
  }

  /** If a rejected apply may land, Ensure can succeed and leave its object in the
      cluster without ever filing it: the retry finds it there. */
  lemma LandedFailureLeaks(env: Env, o: Obj)
    requires Plain(env, o) && !env.dryRun
    requires forall t :: env.lookup(t) == {}
    requires forall t: nat :: env.api(t) == if t == 2 then Rejected(ServerTimeout, true) else Accepted
    ensures var w := World(Api(map[], 0, []), map[]);
            var (w', e) := Ensure(env, w, o, map[], true, 1);
            e == {} && Target(env, o) in w'.api.objects && w'.applied == map[]
  {
    hide AppliedKey;
    hide Retry;
    var w, op := World(Api(map[], 0, []), map[]), EnsureOp(map[], true);
    assert o.annotations + map[] == o.annotations;
    assert Annotate(o, map[]) == o;
    var t0 := Start(w, o);
    var t1 := Attempt(env, op, t0).0;
    assert Attempt(env, op, t0).1 == {ServerTimeout} && t1.world.api.clock == 3 && t1.obj == o;
    var t2 := Attempt(env, op, t1).0;
    assert Attempt(env, op, t1).1 == {};
    RetriedOnce(env, op, t0, t1, t2);
  }

  // ---- two API groups, one key ----

  lemma AcceptedEnsure(env: Env, w: World, o: Obj)
    requires Plain(env, o) && !env.dryRun && Target(env, o) !in w.api.objects
    requires forall t :: env.lookup(t) == {}
    requires forall t :: env.api(t).Accepted?
    ensures var (w', e) := Ensure(env, w, o, map[], true, 1);
            && e == {} && w'.applied == w.applied[AppliedKey(o) := o]
            && w'.api.objects == w.api.objects[IdOf(env.scopes, o) := o]
  {
    hide AppliedKey;
    hide Retry;
    assert o.annotations + map[] == o.annotations;
    assert Annotate(o, map[]) == o;
    var t0, op := Start(w, o), EnsureOp(map[], true);
    assert Attempt(env, op, t0).1 == {};
    FirstTime(env, WritePolicies(1), op, t0, Attempt(env, op, t0).0);
  }

  lemma AcceptedDelete(env: Env, w: World, o: Obj)
    requires Plain(env, o) && Target(env, o) in w.api.objects
    requires forall t :: env.lookup(t) == {}
    requires forall t :: env.api(t).Accepted?
    ensures var (w', e) := DeleteCall(env, w, o, 1, BySweep);
            && e == {} && w'.applied == w.applied - {AppliedKey(o)}
            && w'.api.objects == w.api.objects - {IdOf(env.scopes, o)}
  {
    hide AppliedKey;
    hide Retry;
    var t0 := Start(w, o);
    assert Attempt(env, DeleteOp, t0).1 == {};
    FirstTime(env, WritePolicies(1), DeleteOp, t0, Attempt(env, DeleteOp, t0).0);
  }

  lemma OneKeyRepeats(order: seq<string>, key: string)
    requires forall i :: 0 <= i < |order| ==> order[i] == key
    ensures |order| <= 1 || exists i, j :: 0 <= i < j < |order| && order[i] == order[j]
  {
    if |order| > 1 {
      assert order[0] == order[1];
    }
  }

  /** A fair order of a single key is that key. */
  lemma OneKeyOrder(order: seq<string>, key: string)
    requires Enumerates(order, {key})
    ensures order == [key]
  {
    assert key in order;
    forall i | 0 <= i < |order| ensures order[i] == key {
      assert order[i] in order;
      assert order[i] in {key};
    }
    OneKeyRepeats(order, key);
  }

  lemma AcceptedCleanup(env: Env, w: World, o: Obj)
    requires Plain(env, o) && !env.dryRun && Target(env, o) in w.api.objects && w.applied == map[AppliedKey(o) := o]
    requires forall t :: env.lookup(t) == {}
    requires forall t :: env.api(t).Accepted?
    requires forall t, keys :: Enumerates(env.order(t, keys), keys)
    ensures var (w', e) := Cleanup(env, w);
            e == {} && w'.applied == map[] && w'.api.objects == w.api.objects - {IdOf(env.scopes, o)}
  {
    hide AppliedKey;
    hide DeleteCall;
    var key := AppliedKey(o);
    assert w.applied.Keys == {key};
    OneKeyOrder(env.order(w.api.clock, w.applied.Keys), key);
    AcceptedDelete(env, w, o);
    assert w.applied - {key} == map[];
    var w1 := DeleteCall(env, w, o, 1, BySweep).0;
    assert [key][1..] == [] && Sweep(env, w1, w.applied, []) == (w1, {});
  }

  /** Two objects that differ only in their API group overwrite each other in the
      cache: every call succeeds, the sweep included, and the first stays behind. */
  lemma GroupCollisionLeaks(env: Env, o: Obj, group: string)
    requires group != o.group && Plain(env, o) && Plain(env, o.(group := group)) && !env.dryRun
    requires forall t :: env.lookup(t) == {}
    requires forall t :: env.api(t).Accepted?
    requires forall t, keys :: Enumerates(env.order(t, keys), keys)
    ensures var twin := o.(group := group);
            var (w1, e1) := Ensure(env, World(Api(map[], 0, []), map[]), o, map[], true, 1);
            var (w2, e2) := Ensure(env, w1, twin, map[], true, 1);
            var (w3, e3) := Cleanup(env, w2);
            e1 == e2 == e3 == {} && w3.applied == map[] && w3.api.objects.Keys == {IdOf(env.scopes, o)}
  {
    hide AppliedKey;
    hide Ensure;
    hide Cleanup;
    var w0, twin := World(Api(map[], 0, []), map[]), o.(group := group);
    AcceptedEnsure(env, w0, o);
    GroupsShareAKey(env.scopes, o, group);
    var w1 := Ensure(env, w0, o, map[], true, 1).0;
    AcceptedEnsure(env, w1, twin);
    var w2 := Ensure(env, w1, twin, map[], true, 1).0;
    assert w2.applied == map[AppliedKey(twin) := twin];
    AcceptedCleanup(env, w2, twin);
  }
}
