/** Cleanup: the sweep over a snapshot of the cache that its own deletes shrink. */
module Sweeping {

  import opened Errors
  import opened Objects
  import opened SafeStore
  import opened Lifecycle
  import opened CacheAgreement

  // ---- what one Delete does to the cache ----

  ghost predicate Evicting(w: World, settled: Obj, env: Env, t: Thread) {
    && Settle(env.scopes, env.namespace, t.obj) == settled
    && (t.world.applied == w.applied || t.world.applied == w.applied - {AppliedKey(settled)})
  }

  ghost predicate Evicted(w: World, settled: Obj, t: Thread) {
    t.world.applied == w.applied - {AppliedKey(settled)}
  }

  lemma EvictingAttempt(env: Env, w: World, settled: Obj, t: Thread)
    requires Evicting(w, settled, env, t)
    ensures var (t', e) := Attempt(env, DeleteOp, t);
            Evicting(w, settled, env, t') && (e == {} ==> Evicted(w, settled, t'))
  {
    hide DeleteOnce;
    hide AppliedKey;
    DeleteOnceEvicts(env, t.world, t.obj);
    var k := AppliedKey(settled);
    assert w.applied - {k} - {k} == w.applied - {k};
  }

  lemma RetriedDeleteEvicts(env: Env, w: World, o: Obj, attempts: int)
    ensures var (t, e) := Retry(env, WritePolicies(attempts), DeleteOp, Start(w, o));
            var settled := Settle(env.scopes, env.namespace, o);
            if e == {} then Evicted(w, settled, t) else Evicting(w, settled, env, t)
  {
    hide Retry;
    hide Attempt;
    hide AppliedKey;
    var settled := Settle(env.scopes, env.namespace, o);
    assert Evicting(w, settled, env, Start(w, o));
    hide Evicting;
    hide Evicted;
    hide WritePolicies;
    var P: Claim := (t: Thread) => Evicting(w, settled, env, t);
    var Q: Claim := (t: Thread) => Evicted(w, settled, t);
    forall t {:trigger Attempt(env, DeleteOp, t)} | P(t)
      ensures P(Attempt(env, DeleteOp, t).0) && (Attempt(env, DeleteOp, t).1 == {} ==> Q(Attempt(env, DeleteOp, t).0))
    {
      EvictingAttempt(env, w, settled, t);
    }
    RetryTriple(env, WritePolicies(attempts), DeleteOp, Start(w, o), P, Q);
  }

  /** Delete evicts at most its own key, and evicts it whenever it succeeds. */
  lemma DeleteCallCache(env: Env, w: World, o: Obj, attempts: int, origin: Origin)
    ensures var (w', e) := DeleteCall(env, w, o, attempts, origin);
            var key := AppliedKey(Settle(env.scopes, env.namespace, o));
            && (w'.applied == w.applied || w'.applied == w.applied - {key})
            && (e == {} ==> w'.applied == w.applied - {key})
  {
    hide Retry;
    hide AppliedKey;
    hide Target;
    RetriedDeleteEvicts(env, w, o, attempts);
  }

  /** Kind resolution never fails for this object. */
  ghost predicate Resolvable(env: Env, o: Obj) {
    !Untyped(o) && !ScopeOf(env.scopes, o).Unmapped? && forall t :: env.lookup(t) == {}
  }

  ghost predicate EvictedOnceTried(env: Env, w: World, settled: Obj, t: Thread) {
    && Evicting(w, settled, env, t) && Resolvable(env, t.obj)
    && (t.results != [] ==> Evicted(w, settled, t))
  }

  lemma ResolvableAttemptEvicts(env: Env, w: World, settled: Obj, t: Thread)
    requires EvictedOnceTried(env, w, settled, t)
    ensures EvictedOnceTried(env, w, settled, Attempt(env, DeleteOp, t).0)
  {
    hide AppliedKey;
    var k := AppliedKey(settled);
    assert w.applied - {k} - {k} == w.applied - {k};
  }

  lemma RetriedDeleteTried(env: Env, w: World, o: Obj, attempts: int)
    requires Resolvable(env, o)
    ensures EvictedOnceTried(env, w, Settle(env.scopes, env.namespace, o),
              Retry(env, WritePolicies(attempts), DeleteOp, Start(w, o)).0)
  {
    hide Retry;
    hide Attempt;
    hide AppliedKey;
    var settled := Settle(env.scopes, env.namespace, o);
    assert EvictedOnceTried(env, w, settled, Start(w, o));
    hide EvictedOnceTried;
    hide WritePolicies;
    var P: Claim := (t: Thread) => EvictedOnceTried(env, w, settled, t);
    forall t {:trigger Attempt(env, DeleteOp, t)} | P(t) ensures P(Attempt(env, DeleteOp, t).0) {
      ResolvableAttemptEvicts(env, w, settled, t);
    }
    RetryTriple(env, WritePolicies(attempts), DeleteOp, Start(w, o), P, P);
  }

  /** When resolution succeeds, the key is evicted even if every delete call fails. */
  lemma ResolvableDeleteEvicts(env: Env, w: World, o: Obj, attempts: int, origin: Origin)
    requires Resolvable(env, o)
    ensures DeleteCall(env, w, o, attempts, origin).0.applied
         == w.applied - {AppliedKey(Settle(env.scopes, env.namespace, o))}
  {
    hide Retry;
    hide AppliedKey;
    hide Target;
    RetriedDeleteTried(env, w, o, attempts);
    RetryContract(env, WritePolicies(attempts), DeleteOp, Start(w, o));
  }

  // ---- the delete results in the log ----

  function Deletes(audit: seq<Call>): seq<Call> {
    if audit == [] then []
    else Deletes(audit[..|audit| - 1]) + if audit[|audit| - 1].Deleted? then [audit[|audit| - 1]] else []
  }

  lemma {:induction false} QuietAddsNoDeletes(a: seq<Call>, b: seq<Call>)
    requires a <= b && forall i :: |a| <= i < |b| ==> !b[i].Deleted?
    ensures Deletes(b) == Deletes(a)
    decreases |b|
  {
    if |a| < |b| {
      var c := b[..|b| - 1];
      assert forall i :: 0 <= i < |c| ==> c[i] == b[i];
      QuietAddsNoDeletes(a, c);
    } else {
      assert a == b;
    }
  }

  /** One Delete adds exactly one result. */
  lemma DeleteCallLogsOnce(env: Env, w: World, o: Obj, attempts: int, origin: Origin)
    ensures var (w', e) := DeleteCall(env, w, o, attempts, origin);
            && w.api.audit <= w'.api.audit
            && Deletes(w'.api.audit) == Deletes(w.api.audit) + [Deleted(Target(env, o), e == {}, origin)]
  {
    hide Retry;
    hide Target;
    DeleteRetryQuiet(env, w, o, attempts);
    var (t, e) := Retry(env, WritePolicies(attempts), DeleteOp, Start(w, o));
    QuietAddsNoDeletes(w.api.audit, t.world.api.audit);
    var b := t.world.api.audit + [Deleted(Target(env, o), e == {}, origin)];
    assert b[..|b| - 1] == t.world.api.audit;
  }

  // ---- the sweep ----

  /** The new delete results are one per snapshot key, in sweep order, and the
      joined error is nil exactly when each of them succeeded. */
  ghost predicate SweptEach(env: Env, snapshot: map<string, Obj>, order: seq<string>, results: seq<Call>, err: Err)
    requires forall k :: k in order ==> k in snapshot
  {
    && |results| == |order|
    && (forall i :: 0 <= i < |order| ==>
          && results[i].Deleted? && results[i].origin.BySweep?
          && results[i].id == Target(env, snapshot[order[i]]))
    && (err == {} <==> AllOk(results))
  }

  ghost predicate AllOk(results: seq<Call>) {
    forall i :: 0 <= i < |results| ==> results[i].Deleted? && results[i].ok
  }

  lemma AllOkCons(head: Call, rest: seq<Call>)
    ensures AllOk([head] + rest) <==> head.Deleted? && head.ok && AllOk(rest)
  {
    var all := [head] + rest;
    assert all[0] == head && forall i :: 0 <= i < |rest| ==> rest[i] == all[i + 1];
  }

  /** Every snapshot entry is attempted exactly once whatever the others do. */
  lemma {:induction false} SweepAttemptsEach(env: Env, w: World, snapshot: map<string, Obj>, order: seq<string>)
    returns (results: seq<Call>)
    requires !env.dryRun && forall k :: k in order ==> k in snapshot
    ensures var (w', e) := Sweep(env, w, snapshot, order);
            && w.api.audit <= w'.api.audit
            && Deletes(w'.api.audit) == Deletes(w.api.audit) + results
            && SweptEach(env, snapshot, order, results, e)
    decreases |order|
  {
    hide DeleteCall;
    hide Target;
    results := [];
    if order != [] {
      assert forall k :: k in order[1..] ==> k in order;
      assert order[0] in order;
      var o := snapshot[order[0]];
      var (w1, e1) := DeleteCall(env, w, o, 1, BySweep);
      DeleteCallLogsOnce(env, w, o, 1, BySweep);
      var rest := SweepAttemptsEach(env, w1, snapshot, order[1..]);
      var head := [Deleted(Target(env, o), e1 == {}, BySweep)];
      results := head + rest;
      var (w', e') := Sweep(env, w1, snapshot, order[1..]);
      assert Deletes(w'.api.audit) == Deletes(w.api.audit) + results;
      SweptCons(env, snapshot, order, head[0], rest, e1, e');
    }
  }

  /** The sweep deletes one snapshot entry after the other, each where the last one left
      the world, and joins what they return. */
  ghost predicate SweepChain(
    env: Env, snapshot: map<string, Obj>, order: seq<string>, worlds: seq<World>, errs: seq<Err>)
    requires forall k :: k in order ==> k in snapshot
  {
    && |worlds| == |order| + 1 && |errs| == |order|
    && forall i :: 0 <= i < |order| ==>
         DeleteCall(env, worlds[i], snapshot[order[i]], 1, BySweep) == (worlds[i + 1], errs[i])
  }

  lemma {:induction false} SweepIsChain(env: Env, w: World, snapshot: map<string, Obj>, order: seq<string>)
    returns (worlds: seq<World>, errs: seq<Err>)
    requires !env.dryRun && forall k :: k in order ==> k in snapshot
    ensures SweepChain(env, snapshot, order, worlds, errs) && worlds[0] == w
    ensures Sweep(env, w, snapshot, order).0 == worlds[|order|]
    ensures forall k :: k in Sweep(env, w, snapshot, order).1 <==> exists i :: 0 <= i < |errs| && k in errs[i]
    decreases |order|
  {
    hide DeleteCall;
    worlds, errs := [w], [];
    if order != [] {
      assert forall k :: k in order[1..] ==> k in order;
      assert order[0] in order;
      var (w1, e1) := DeleteCall(env, w, snapshot[order[0]], 1, BySweep);
      var restWorlds, restErrs := SweepIsChain(env, w1, snapshot, order[1..]);
      worlds, errs := [w] + restWorlds, [e1] + restErrs;
      forall i | 0 <= i < |order|
        ensures DeleteCall(env, worlds[i], snapshot[order[i]], 1, BySweep) == (worlds[i + 1], errs[i])
      {
        if i > 0 {
          assert order[i] == order[1..][i - 1];
        }
      }
      ChainErrs(Sweep(env, w1, snapshot, order[1..]).1, e1, restErrs);
    }
  }

  lemma ChainErrs(rest: Err, e1: Err, errs: seq<Err>)
    requires forall k :: k in rest <==> exists i :: 0 <= i < |errs| && k in errs[i]
    ensures forall k :: k in e1 + rest <==> exists i :: 0 <= i < |[e1] + errs| && k in ([e1] + errs)[i]
  {
    var all := [e1] + errs;
    forall k ensures k in e1 + rest <==> exists i :: 0 <= i < |all| && k in all[i] {
      if k in rest {
        var i :| 0 <= i < |errs| && k in errs[i];
        assert k in all[i + 1];
      }
      if k in e1 {
        assert k in all[0];
      }
    }
  }

  lemma SweptCons(
    env: Env, snapshot: map<string, Obj>, order: seq<string>, head: Call, rest: seq<Call>, e1: Err, e2: Err)
    requires order != [] && forall k :: k in order ==> k in snapshot
    requires forall k :: k in order[1..] ==> k in snapshot
    requires head == Deleted(Target(env, snapshot[order[0]]), e1 == {}, BySweep)
    requires SweptEach(env, snapshot, order[1..], rest, e2)
    ensures SweptEach(env, snapshot, order, [head] + rest, e1 + e2)
  {
    hide Target;
    var all := [head] + rest;
    forall i | 0 <= i < |order|
      ensures all[i].Deleted? && all[i].origin.BySweep? && all[i].id == Target(env, snapshot[order[i]])
    {
      if i > 0 { assert all[i] == rest[i - 1] && order[i] == order[1..][i - 1]; }
    }
    AllOkCons(head, rest);
  }

  /** Mid-sweep: what is still cached is in the snapshot and is either still to be
      swept or had its delete fail. */
  ghost predicate SweepingDown(env: Env, since: nat, w: World, snapshot: map<string, Obj>, order: seq<string>) {
    forall k :: k in w.applied ==>
      && k in snapshot && w.applied[k] == snapshot[k]
      && (k in order || BotchedSince(w.api.audit, since, IdOf(env.scopes, snapshot[k])))
  }

  /** The snapshot holds proper cache entries. */
  ghost predicate Sweepable(env: Env, refs: iset<Ref>, snapshot: map<string, Obj>) {
    forall k :: k in snapshot ==>
      && k == AppliedKey(snapshot[k]) && RefOf(snapshot[k]) in refs
      && Settle(env.scopes, env.namespace, snapshot[k]) == snapshot[k]
  }

  lemma SweepStep(
    env: Env, refs: iset<Ref>, kept: set<Id>, since: nat, w: World, snapshot: map<string, Obj>, order: seq<string>)
    requires Separated(refs) && order != [] && order[0] in snapshot
    requires Agrees(env, refs, kept, since, w) && Sweepable(env, refs, snapshot)
    requires SweepingDown(env, since, w, snapshot, order)
    ensures var w1 := DeleteCall(env, w, snapshot[order[0]], 1, BySweep).0;
            && w.api.audit <= w1.api.audit
            && Agrees(env, refs, kept, since, w1) && SweepingDown(env, since, w1, snapshot, order[1..])
            && Dropped(w1.api.audit, |w.api.audit|) == {}
  {
    hide DeleteCall;
    hide AgreesBut;
    hide Separated;
    hide BotchedSince;
    hide Dropped;
    hide AppliedKey;
    var o := snapshot[order[0]];
    var (w1, e) := DeleteCall(env, w, o, 1, BySweep);
    DeleteCallAgreement(env, refs, kept, since, w, o, 1, BySweep);
    DeleteCallCache(env, w, o, 1, BySweep);
    KeepingMoreAgrees(env, refs, if e == {} then kept - {Target(env, o)} else kept, kept, since, w1);
    if e != {} { FailedDeleteIsBotched(env, refs, kept, since, w, o, BySweep); }
    forall k | k in w1.applied
      ensures k in snapshot && w1.applied[k] == snapshot[k]
           && (k in order[1..] || BotchedSince(w1.api.audit, since, IdOf(env.scopes, snapshot[k])))
    {
      assert k in w.applied;
      if k !in order[1..] && k != order[0] {
        BotchRemembered(w.api.audit, w1.api.audit, since, IdOf(env.scopes, snapshot[k]));
      }
    }
  }

  lemma BotchRemembered(a: seq<Call>, b: seq<Call>, since: nat, id: Id)
    requires a <= b && BotchedSince(a, since, id)
    ensures BotchedSince(b, since, id)
  {
    var i: nat :| since <= i < |a| && a[i].Deleted? && a[i].id == id && !a[i].ok;
    assert b[i] == a[i];
  }

  lemma FailedDeleteIsBotched(
    env: Env, refs: iset<Ref>, kept: set<Id>, since: nat, w: World, o: Obj, origin: Origin)
    requires Agrees(env, refs, kept, since, w)
    requires DeleteCall(env, w, o, 1, origin).1 != {}
    ensures BotchedSince(DeleteCall(env, w, o, 1, origin).0.api.audit, since, Target(env, o))
  {
    hide Retry;
    hide Target;
    DeleteRetryQuiet(env, w, o, 1);
    var (t, e) := Retry(env, WritePolicies(1), DeleteOp, Start(w, o));
    var grown := t.world.api.audit + [Deleted(Target(env, o), false, origin)];
    assert grown[|t.world.api.audit|] == Deleted(Target(env, o), false, origin);
  }

  lemma {:induction false} SweepAgreement(
    env: Env, refs: iset<Ref>, kept: set<Id>, since: nat, w: World, snapshot: map<string, Obj>, order: seq<string>)
    requires !env.dryRun && Separated(refs)
    requires forall k :: k in order ==> k in snapshot
    requires Agrees(env, refs, kept, since, w) && Sweepable(env, refs, snapshot)
    requires SweepingDown(env, since, w, snapshot, order)
    ensures var w' := Sweep(env, w, snapshot, order).0;
            && w.api.audit <= w'.api.audit
            && Agrees(env, refs, kept, since, w') && SweepingDown(env, since, w', snapshot, [])
            && Dropped(w'.api.audit, |w.api.audit|) == {}
    decreases |order|
  {
    hide DeleteCall;
    hide AgreesBut;
    hide Separated;
    hide SweepingDown;
    hide Sweepable;
    hide Dropped;
    if order == [] {
      NothingDropped(w.api.audit);
    } else {
      assert order[0] in order && forall k :: k in order[1..] ==> k in order;
      SweepStep(env, refs, kept, since, w, snapshot, order);
      var w1 := DeleteCall(env, w, snapshot[order[0]], 1, BySweep).0;
      SweepAgreement(env, refs, kept, since, w1, snapshot, order[1..]);
      DroppedSplits(w1.api.audit, Sweep(env, w1, snapshot, order[1..]).0.api.audit, |w.api.audit|);
    }
  }

  lemma NothingDropped(audit: seq<Call>)
    ensures Dropped(audit, |audit|) == {}
  {
  }

  /** After Cleanup, in whatever order it swept, anything still there is to be kept or
      excused. */
  lemma CleanupLeaves(env: Env, refs: iset<Ref>, kept: set<Id>, since: nat, w: World)
    requires !env.dryRun && Separated(refs) && Agrees(env, refs, kept, since, w)
    requires Enumerates(env.order(w.api.clock, w.applied.Keys), w.applied.Keys)
    ensures var (w', e) := Cleanup(env, w);
            && w.api.audit <= w'.api.audit && Dropped(w'.api.audit, |w.api.audit|) == {}
            && (forall id :: id in w'.api.objects.Keys && id !in kept ==> Disturbed(env, w'.api.audit, since, id))
  {
    hide Sweep;
    hide BotchedSince;
    hide LandedSince;
    hide Dropped;
    hide AppliedKey;
    hide Separated;
    hide CreatedSince;
    var order := env.order(w.api.clock, w.applied.Keys);
    assert forall k :: k in w.applied ==> Entry(env, refs, since, w, k);
    SweepAgreement(env, refs, kept, since, w, w.applied, order);
    var w' := Cleanup(env, w).0;
    forall id | id in w'.api.objects.Keys && id !in kept ensures Disturbed(env, w'.api.audit, since, id) {
      if Cached(env, w', id) {
        var k :| k in w'.applied && IdOf(env.scopes, w'.applied[k]) == id;
      }
    }
  }

  /** Cleanup attempts every cached object exactly once; it reports nil exactly
      when all of them succeeded. */
  lemma CleanupAttemptsEach(env: Env, w: World) returns (results: seq<Call>)
    requires !env.dryRun
    requires Enumerates(env.order(w.api.clock, w.applied.Keys), w.applied.Keys)
    ensures var (w', e) := Cleanup(env, w);
            && Deletes(w'.api.audit) == Deletes(w.api.audit) + results
            && SweptEach(env, w.applied, env.order(w.api.clock, w.applied.Keys), results, e)
  {
    results := SweepAttemptsEach(env, w, w.applied, env.order(w.api.clock, w.applied.Keys));
  }

  /** Every cached object is settled, mapped and filed under its own key. */
  ghost predicate WellFiled(env: Env, applied: map<string, Obj>) {
    forall k :: k in applied ==>
      var o := applied[k];
      k == AppliedKey(o) && !Untyped(o) && !ScopeOf(env.scopes, o).Unmapped?
        && Settle(env.scopes, env.namespace, o) == o
  }

  lemma {:induction false} SweepEmpties(env: Env, w: World, snapshot: map<string, Obj>, order: seq<string>)
    requires !env.dryRun && WellFiled(env, snapshot)
    requires forall k :: k in order ==> k in snapshot
    requires forall k :: k in w.applied ==> k in order
    requires Sweep(env, w, snapshot, order).1 == {} || forall t :: env.lookup(t) == {}
    ensures Sweep(env, w, snapshot, order).0.applied == map[]
    decreases |order|
  {
    hide DeleteCall;
    hide AppliedKey;
    if order == [] {
      assert w.applied.Keys == {};
    } else {
      assert order[0] in order && forall k :: k in order[1..] ==> k in order;
      var o := snapshot[order[0]];
      var (w1, e1) := DeleteCall(env, w, o, 1, BySweep);
      DeleteCallCache(env, w, o, 1, BySweep);
      if e1 != {} { ResolvableDeleteEvicts(env, w, o, 1, BySweep); }
      assert w1.applied == w.applied - {order[0]};
      SweepEmpties(env, w1, snapshot, order[1..]);
    }
  }

  /** The cache ends empty when every delete succeeds, and also when deletes fail
      but kind resolution does not. */
  lemma CleanupEmptiesCache(env: Env, w: World)
    requires !env.dryRun && WellFiled(env, w.applied)
    requires Enumerates(env.order(w.api.clock, w.applied.Keys), w.applied.Keys)
    requires Cleanup(env, w).1 == {} || forall t :: env.lookup(t) == {}
    ensures Cleanup(env, w).0.applied == map[]
  {
    hide Sweep;
    hide WellFiled;
    SweepEmpties(env, w, w.applied, env.order(w.api.clock, w.applied.Keys));
  }
}
