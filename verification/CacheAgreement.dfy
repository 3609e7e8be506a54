/** The applied cache agrees with what the service created, at every state the
lifecycle operations can reach and under every failure pattern. */
module CacheAgreement {

  import opened Errors
  import opened Objects
  import opened Lifecycle
  import opened SafeStore
  import Waiting

  /** The references a case uses: slash-free, and never the same namespace, kind
      and name in two API groups. */
  ghost predicate Separated(refs: iset<Ref>) {
    && (forall r :: r in refs ==> SlashFree(r))
    && forall r, s ::
         r in refs && s in refs && r.ns == s.ns && r.kind == s.kind && r.name == s.name ==> r.group == s.group
  }

  lemma SameKeySameRef(refs: iset<Ref>, o: Obj, p: Obj)
    requires Separated(refs) && RefOf(o) in refs && RefOf(p) in refs && AppliedKey(o) == AppliedKey(p)
    ensures RefOf(o) == RefOf(p)
  {
    KeyInjective(o, p);
  }

  /** The object was seen absent and then applied, in adjacent calls. */
  ghost predicate CreatedSince(audit: seq<Call>, since: nat, id: Id) {
    exists i: nat :: since <= i && i + 1 < |audit| && audit[i] == Probed(id, false)
      && audit[i + 1].Applied? && audit[i + 1].id == id && audit[i + 1].ok
  }

  /** Some Delete of the object, retries included, failed. */
  ghost predicate BotchedSince(audit: seq<Call>, since: nat, id: Id) {
    exists i: nat :: since <= i < |audit| && audit[i].Deleted? && audit[i].id == id && !audit[i].ok
  }

  /** Some apply of the object was rejected although it took effect. */
  ghost predicate LandedSince(audit: seq<Call>, since: nat, id: Id) {
    exists i: nat ::
      since <= i < |audit| && audit[i].Applied? && audit[i].id == id && !audit[i].ok && audit[i].effective
  }

  /** What excuses an object that is left behind: a failed delete or, where rejected
      calls can have an effect, a rejected apply that took effect. */
  ghost predicate Disturbed(env: Env, audit: seq<Call>, since: nat, id: Id) {
    BotchedSince(audit, since, id) || (!FailuresHaveNoEffect(env) && LandedSince(audit, since, id))
  }

  lemma DisturbanceRemembered(env: Env, a: seq<Call>, b: seq<Call>, early: nat, late: nat, id: Id)
    requires a <= b && early <= late && Disturbed(env, a, late, id)
    ensures Disturbed(env, b, early, id)
  {
    if BotchedSince(a, late, id) {
      var i: nat :| late <= i < |a| && a[i].Deleted? && a[i].id == id && !a[i].ok;
      assert b[i] == a[i];
    } else {
      var i: nat :| late <= i < |a| && a[i].Applied? && a[i].id == id && !a[i].ok && a[i].effective;
      assert b[i] == a[i];
    }
  }

  /** The objects delete actions removed. */
  ghost function Dropped(audit: seq<Call>, since: nat): set<Id> {
    set i: nat | since <= i < |audit| && audit[i].Deleted? && audit[i].ok && audit[i].origin.ByAction? :: audit[i].id
  }

  ghost predicate Cached(env: Env, w: World, id: Id) {
    exists k :: k in w.applied && IdOf(env.scopes, w.applied[k]) == id
  }

  /** A cache entry is filed under its own key, needs no further defaulting, and
      records something this service created. */
  ghost predicate Entry(env: Env, refs: iset<Ref>, since: nat, w: World, k: string)
    requires k in w.applied
  {
    var o := w.applied[k];
    && k == AppliedKey(o)
    && !Untyped(o) && !ScopeOf(env.scopes, o).Unmapped? && Settle(env.scopes, env.namespace, o) == o
    && RefOf(o) in refs
    && CreatedSince(w.api.audit, since, IdOf(env.scopes, o))
  }

  /** Cache agreement, but for the one object being deleted: what is cached was seen
      absent and then applied, and anything present is to be kept, or cached, or
      excused. */
  ghost predicate AgreesBut(env: Env, refs: iset<Ref>, kept: set<Id>, since: nat, w: World, except: set<Id>) {
    && since <= |w.api.audit|
    && (forall k :: k in w.applied ==> Entry(env, refs, since, w, k))
    && (forall id :: id in w.api.objects.Keys && id !in kept && id !in except
          ==> Cached(env, w, id) || Disturbed(env, w.api.audit, since, id))
  }

  ghost predicate Agrees(env: Env, refs: iset<Ref>, kept: set<Id>, since: nat, w: World) {
    AgreesBut(env, refs, kept, since, w, {})
  }

  /** The log grew, by no Delete result. */
  ghost predicate Quiet(a: Api, b: Api) {
    a.audit <= b.audit && forall i :: |a.audit| <= i < |b.audit| ==> !b.audit[i].Deleted?
  }

  /** Growing the log, removing objects and adding excused ones keeps agreement. */
  lemma AgreementSurvivesLogging(
    env: Env, refs: iset<Ref>, kept: set<Id>, since: nat, w: World, w': World, except: set<Id>)
    requires AgreesBut(env, refs, kept, since, w, except)
    requires w.api.audit <= w'.api.audit && w'.applied == w.applied
    requires forall id :: id in w'.api.objects.Keys ==> id in w.api.objects || Disturbed(env, w'.api.audit, since, id)
    ensures AgreesBut(env, refs, kept, since, w', except)
  {
    hide Disturbed;
    forall k | k in w'.applied ensures Entry(env, refs, since, w', k) {
      assert Entry(env, refs, since, w, k);
      CreationRemembered(w.api.audit, w'.api.audit, since, IdOf(env.scopes, w.applied[k]));
    }
    forall id | id in w'.api.objects.Keys && id !in kept && id !in except
      ensures Cached(env, w', id) || Disturbed(env, w'.api.audit, since, id)
    {
      if Disturbed(env, w.api.audit, since, id) {
        DisturbanceRemembered(env, w.api.audit, w'.api.audit, since, since, id);
      } else if Cached(env, w, id) {
        var k :| k in w.applied && IdOf(env.scopes, w.applied[k]) == id;
        assert k in w'.applied && IdOf(env.scopes, w'.applied[k]) == id;
      }
    }
  }

  lemma CreationRemembered(a: seq<Call>, b: seq<Call>, since: nat, id: Id)
    requires a <= b && CreatedSince(a, since, id)
    ensures CreatedSince(b, since, id)
  {
    var i: nat :| since <= i && i + 1 < |a| && a[i] == Probed(id, false)
      && a[i + 1].Applied? && a[i + 1].id == id && a[i + 1].ok;
    assert b[i] == a[i] && b[i + 1] == a[i + 1];
  }

  /** What w' is to w after an object was created and filed. */
  ghost predicate Filed(env: Env, since: nat, w: World, w': World, o: Obj) {
    var id := IdOf(env.scopes, o);
    && !Untyped(o) && !ScopeOf(env.scopes, o).Unmapped? && Settle(env.scopes, env.namespace, o) == o
    && id !in w.api.objects
    && w'.api.objects.Keys == w.api.objects.Keys + {id}
    && w.api.audit <= w'.api.audit && CreatedSince(w'.api.audit, since, id)
    && w'.applied == w.applied[AppliedKey(o) := o]
  }

  lemma FiledStaysCovered(
    env: Env, refs: iset<Ref>, since: nat, w: World, w': World, o: Obj, id: Id)
    requires Separated(refs) && RefOf(o) in refs && Filed(env, since, w, w', o)
    requires forall k :: k in w.applied ==> Entry(env, refs, since, w, k)
    requires id == IdOf(env.scopes, o) || Cached(env, w, id)
    ensures Cached(env, w', id)
  {
    hide CreatedSince;
    hide Separated;
    if id == IdOf(env.scopes, o) {
      assert AppliedKey(o) in w'.applied;
    } else {
      var k :| k in w.applied && IdOf(env.scopes, w.applied[k]) == id;
      assert Entry(env, refs, since, w, k);
      if k == AppliedKey(o) {
        SameKeySameRef(refs, o, w.applied[k]);
      }
      assert k in w'.applied && IdOf(env.scopes, w'.applied[k]) == id;
    }
  }

  lemma FiledEntries(env: Env, refs: iset<Ref>, since: nat, w: World, w': World, o: Obj, k: string)
    requires RefOf(o) in refs && Filed(env, since, w, w', o)
    requires k in w'.applied && (k in w.applied ==> Entry(env, refs, since, w, k))
    ensures Entry(env, refs, since, w', k)
  {
    if k != AppliedKey(o) {
      CreationRemembered(w.api.audit, w'.api.audit, since, IdOf(env.scopes, w.applied[k]));
    }
  }

  /** Filing a freshly created object keeps agreement. */
  lemma FilingKeepsAgreement(env: Env, refs: iset<Ref>, kept: set<Id>, since: nat, w: World, w': World, o: Obj)
    requires Separated(refs) && Agrees(env, refs, kept, since, w)
    requires RefOf(o) in refs && Filed(env, since, w, w', o)
    ensures Agrees(env, refs, kept, since, w')
  {
    hide Separated;
    hide Entry;
    hide Cached;
    hide Disturbed;
    hide CreatedSince;
    forall k | k in w'.applied ensures Entry(env, refs, since, w', k) {
      FiledEntries(env, refs, since, w, w', o, k);
    }
    forall id | id in w'.api.objects.Keys && id !in kept
      ensures Cached(env, w', id) || Disturbed(env, w'.api.audit, since, id)
    {
      if id == IdOf(env.scopes, o) || Cached(env, w, id) {
        FiledStaysCovered(env, refs, since, w, w', o, id);
      } else {
        DisturbanceRemembered(env, w.api.audit, w'.api.audit, since, since, id);
      }
    }
  }

  /** Resolution only ticks the clock and settles the object. */
  lemma ResolveShape(env: Env, w: World, o: Obj)
    ensures var (w1, o1, e) := Resolve(env, w, o);
            && w1.applied == w.applied && w1.api.objects == w.api.objects && w1.api.audit == w.api.audit
            && Settle(env.scopes, env.namespace, o1) == Settle(env.scopes, env.namespace, o)
            && (e == {} ==> o1 == Settle(env.scopes, env.namespace, o))
            && (e == {} ==> !Untyped(o1) && !ScopeOf(env.scopes, o1).Unmapped?)
            && (o1 == o || o1 == Settle(env.scopes, env.namespace, o))
  {
  }

  /** Get, Apply and Remove one by one: what an answer says about the server. */
  lemma GetShape(env: Env, a: Api, id: Id)
    ensures var (a', e) := Get(env, a, id);
            && a'.objects == a.objects
            && (if e == {} || NotFound in e
                then a'.audit == a.audit + [Probed(id, id in a.objects)] && (NotFound in e <==> id !in a.objects)
                else a'.audit == a.audit)
  {
  }

  /** The answer to the call at this time is a rejection after the effect. */
  predicate Lands(env: Env, t: nat) {
    env.api(t).Rejected? && env.api(t).landed
  }

  lemma ApplyShape(env: Env, a: Api, id: Id, o: Obj)
    ensures var (a', e) := Apply(env, a, id, o);
            var effective := e == {} || Lands(env, a.clock);
            && a'.objects == (if effective then a.objects[id := o] else a.objects)
            && a'.audit == a.audit + [Applied(id, o, e == {}, effective)]
            && (e != {} && effective ==> !FailuresHaveNoEffect(env))
  {
  }

  lemma RemoveShape(env: Env, a: Api, id: Id)
    ensures var (a', e) := Remove(env, a, id);
            var ok := e == {} || NotFound in e;
            && a'.objects == (if ok || Lands(env, a.clock) then a.objects - {id} else a.objects)
            && a'.audit == a.audit + [Removed(id, ok)]
            && (!ok && Lands(env, a.clock) ==> !FailuresHaveNoEffect(env))
  {
  }

  /** A rejected Ensure attempt leaves the cache alone and the objects too, unless its
      apply took effect; a successful one probed and then applied the settled object,
      and if the probe found nothing, the object is new on the server and, with caching
      on, filed in the cache. */
  lemma EnsureOnceCases(env: Env, annotations: map<string, string>, toCache: bool, w: World, o: Obj)
    ensures var (w', o', e) := EnsureOnce(env, annotations, toCache, w, o);
            var settled := Settle(env.scopes, env.namespace, o);
            var id := IdOf(env.scopes, o');
            if e != {} then
              && Quiet(w.api, w'.api) && w'.applied == w.applied
              && (o' == o || o' == settled || o' == Annotate(settled, annotations))
              && (|| w'.api.objects == w.api.objects
                  || (&& o' == Annotate(settled, annotations) && w'.api.objects == w.api.objects[id := o']
                      && !FailuresHaveNoEffect(env) && LandedSince(w'.api.audit, |w.api.audit|, id)))
            else
              && o' == Annotate(settled, annotations)
              && !Untyped(o') && !ScopeOf(env.scopes, o').Unmapped?
              && w'.api.audit == w.api.audit + [Probed(id, id in w.api.objects), Applied(id, o', true, true)]
              && w'.api.objects == w.api.objects[id := o']
              && w'.applied == if id in w.api.objects || !toCache then w.applied else w.applied[AppliedKey(o') := o']
  {
    hide AppliedKey;
    hide IdOf;
    hide Resolve;
    hide Get;
    hide Apply;
    hide Settle;
    hide Lands;
    ResolveShape(env, w, o);
    var (w1, settled, e1) := Resolve(env, w, o);
    if e1 == {} {
      var ready := Annotate(settled, annotations);
      var id := IdOf(env.scopes, ready);
      GetShape(env, w1.api, id);
      var a2 := Get(env, w1.api, id).0;
      ApplyShape(env, a2, id, ready);
      if Lands(env, a2.clock) {
        LandedLast(a2.audit, |w.api.audit|, id, ready);
      }
    }
  }

  lemma LandedLast(audit: seq<Call>, since: nat, id: Id, o: Obj)
    requires since <= |audit|
    ensures LandedSince(audit + [Applied(id, o, false, true)], since, id)
  {
    var grown := audit + [Applied(id, o, false, true)];
    assert grown[|audit|] == Applied(id, o, false, true);
  }

  /** An Ensure attempt never logs a delete result and keeps sending one reference. */
  lemma EnsureOnceFailing(env: Env, annotations: map<string, string>, w: World, o: Obj)
    ensures var (w', o', e) := EnsureOnce(env, annotations, true, w, o);
            && Quiet(w.api, w'.api)
            && RefOf(Settle(env.scopes, env.namespace, o')) == RefOf(Settle(env.scopes, env.namespace, o))
  {
    hide AppliedKey;
    hide EnsureOnce;
    EnsureOnceCases(env, annotations, true, w, o);
  }

  lemma SeenThenApplied(audit: seq<Call>, since: nat, id: Id, o: Obj)
    requires since <= |audit|
    ensures CreatedSince(audit + [Probed(id, false), Applied(id, o, true, true)], since, id)
  {
    var grown := audit + [Probed(id, false), Applied(id, o, true, true)];
    var i := |audit|;
    assert grown[i] == Probed(id, false) && grown[i + 1] == Applied(id, o, true, true);
  }

  /** An Ensure attempt creates the settled object and files it, or leaves the cache
      alone and adds no object that is not excused. */
  lemma EnsureOnceShape(env: Env, since: nat, annotations: map<string, string>, w: World, o: Obj)
    requires since <= |w.api.audit|
    ensures var (w', o', e) := EnsureOnce(env, annotations, true, w, o);
            && Quiet(w.api, w'.api)
            && RefOf(Settle(env.scopes, env.namespace, o')) == RefOf(Settle(env.scopes, env.namespace, o))
            && (|| (e == {} && RefOf(o') == RefOf(Settle(env.scopes, env.namespace, o)) && Filed(env, since, w, w', o'))
                || (&& w'.applied == w.applied
                    && forall id :: id in w'.api.objects.Keys
                         ==> id in w.api.objects || Disturbed(env, w'.api.audit, since, id)))
  {
    hide EnsureOnce;
    hide AppliedKey;
    hide CreatedSince;
    hide LandedSince;
    EnsureOnceFailing(env, annotations, w, o);
    EnsureOnceCases(env, annotations, true, w, o);
    var (w', o', e) := EnsureOnce(env, annotations, true, w, o);
    var id := IdOf(env.scopes, o');
    if e == {} {
      SeenThenApplied(w.api.audit, since, id, o');
    } else if LandedSince(w'.api.audit, |w.api.audit|, id) && !FailuresHaveNoEffect(env) {
      assert Disturbed(env, w'.api.audit, |w.api.audit|, id);
      DisturbanceRemembered(env, w'.api.audit, w'.api.audit, since, |w.api.audit|, id);
    }
  }

  /** One Ensure attempt, whatever the API server answers. */
  lemma EnsureOnceKeepsAgreement(
    env: Env, refs: iset<Ref>, kept: set<Id>, since: nat, annotations: map<string, string>, w: World, o: Obj)
    requires Separated(refs) && Agrees(env, refs, kept, since, w)
    requires RefOf(Settle(env.scopes, env.namespace, o)) in refs
    ensures var (w', o', e) := EnsureOnce(env, annotations, true, w, o);
            && Agrees(env, refs, kept, since, w') && Quiet(w.api, w'.api)
            && RefOf(Settle(env.scopes, env.namespace, o')) in refs
  {
    hide EnsureOnce;
    hide Filed;
    hide Separated;
    hide Disturbed;
    hide Cached;
    hide Entry;
    EnsureOnceShape(env, since, annotations, w, o);
    var (w', o', e) := EnsureOnce(env, annotations, true, w, o);
    if Filed(env, since, w, w', o') && RefOf(o') == RefOf(Settle(env.scopes, env.namespace, o)) {
      FilingKeepsAgreement(env, refs, kept, since, w, w', o');
    } else {
      AgreementSurvivesLogging(env, refs, kept, since, w, w', {});
    }
  }

  // ---- deletion ----

  /** Whatever the server answers, a Delete attempt logs no Delete result and does
      nothing to the cache but evict the target's key. */
  lemma DeleteOnceEvicts(env: Env, w: World, o: Obj)
    ensures var (w', o', e) := DeleteOnce(env, w, o);
            var settled := Settle(env.scopes, env.namespace, o);
            && Quiet(w.api, w'.api) && Settle(env.scopes, env.namespace, o') == settled
            && (w'.applied == w.applied || w'.applied == w.applied - {AppliedKey(settled)})
            && (e == {} ==> w'.applied == w.applied - {AppliedKey(settled)})
  {
    hide AppliedKey;
    hide IdOf;
    hide Resolve;
    hide Settle;
    ResolveShape(env, w, o);
  }

  /** It removes the target, or leaves the objects alone; the latter only when it fails,
      and always then if rejected calls have no effect. */
  lemma DeleteOnceRemoves(env: Env, w: World, o: Obj)
    ensures var (w', o', e) := DeleteOnce(env, w, o);
            var gone := w.api.objects - {IdOf(env.scopes, Settle(env.scopes, env.namespace, o))};
            && (e == {} ==> w'.api.objects == gone)
            && (w'.api.objects == w.api.objects || w'.api.objects == gone)
            && (e != {} && FailuresHaveNoEffect(env) ==> w'.api.objects == w.api.objects)
  {
    hide AppliedKey;
    hide IdOf;
    hide Resolve;
    hide Remove;
    hide Settle;
    hide Lands;
    ResolveShape(env, w, o);
    var (w1, settled, e1) := Resolve(env, w, o);
    RemoveShape(env, w1.api, IdOf(env.scopes, settled));
  }

  /** Evicting a key uncovers at most the object it stands for. */
  lemma EvictionKeepsAgreement(
    env: Env, refs: iset<Ref>, kept: set<Id>, since: nat, w: World, w': World, o: Obj)
    requires Separated(refs) && RefOf(o) in refs
    requires AgreesBut(env, refs, kept, since, w, {IdOf(env.scopes, o)})
    requires w'.applied == w.applied - {AppliedKey(o)} && w'.api == w.api
    ensures AgreesBut(env, refs, kept, since, w', {IdOf(env.scopes, o)})
  {
    hide Separated;
    hide CreatedSince;
    hide Disturbed;
    hide AppliedKey;
    forall k | k in w'.applied ensures Entry(env, refs, since, w', k) {
      assert Entry(env, refs, since, w, k);
    }
    forall id | id in w.api.objects.Keys && id !in kept && id != IdOf(env.scopes, o) && Cached(env, w, id)
      ensures Cached(env, w', id)
    {
      var k :| k in w.applied && IdOf(env.scopes, w.applied[k]) == id;
      assert Entry(env, refs, since, w, k);
      if k == AppliedKey(o) {
        SameKeySameRef(refs, o, w.applied[k]);
      }
      assert k in w'.applied && IdOf(env.scopes, w'.applied[k]) == id;
    }
  }

  /** What is not there need not be kept. */
  lemma AbsentNeedNotBeKept(env: Env, refs: iset<Ref>, kept: set<Id>, since: nat, w: World, id: Id)
    requires AgreesBut(env, refs, kept, since, w, {id}) && id !in w.api.objects
    ensures Agrees(env, refs, kept - {id}, since, w)
  {
    hide Entry;
    hide Disturbed;
    hide Cached;
  }

  /** Mid-deletion: agreement but for the target, since the first eviction. */
  ghost predicate Deleting(env: Env, refs: iset<Ref>, kept: set<Id>, since: nat, w0: World, settled: Obj, t: Thread) {
    && AgreesBut(env, refs, kept, since, t.world, {IdOf(env.scopes, settled)})
    && Quiet(w0.api, t.world.api) && Settle(env.scopes, env.namespace, t.obj) == settled
  }

  ghost predicate DeletionDone(
    env: Env, refs: iset<Ref>, kept: set<Id>, since: nat, w0: World, settled: Obj, t: Thread)
  {
    && Agrees(env, refs, kept - {IdOf(env.scopes, settled)}, since, t.world)
    && Quiet(w0.api, t.world.api)
    && IdOf(env.scopes, settled) !in t.world.api.objects && AppliedKey(settled) !in t.world.applied
  }

  lemma DeleteAttemptKeepsAgreement(
    env: Env, refs: iset<Ref>, kept: set<Id>, since: nat, w0: World, settled: Obj, t: Thread)
    requires Separated(refs) && RefOf(settled) in refs
    requires Deleting(env, refs, kept, since, w0, settled, t)
    ensures var (t', e) := Attempt(env, DeleteOp, t);
            && (e != {} ==> Deleting(env, refs, kept, since, w0, settled, t'))
            && (e == {} ==> DeletionDone(env, refs, kept, since, w0, settled, t'))
  {
    hide DeleteOnce;
    hide AgreesBut;
    hide Separated;
    hide AppliedKey;
    DeleteOnceEvicts(env, t.world, t.obj);
    DeleteOnceRemoves(env, t.world, t.obj);
    var (w', o', e) := DeleteOnce(env, t.world, t.obj);
    var id := IdOf(env.scopes, settled);
    var logged := t.world.(api := w'.api);
    AgreementSurvivesLogging(env, refs, kept, since, t.world, logged, {id});
    if w'.applied != t.world.applied {
      EvictionKeepsAgreement(env, refs, kept, since, logged, w', settled);
    } else {
      assert w' == logged;
    }
    if e == {} {
      AbsentNeedNotBeKept(env, refs, kept, since, w', id);
    }
  }

  lemma LoggedResult(env: Env, refs: iset<Ref>, kept: set<Id>, since: nat, w: World, call: Call, except: set<Id>)
    requires AgreesBut(env, refs, kept, since, w, except)
    requires except == {} || (call.Deleted? && !call.ok && except == {call.id})
    ensures Agrees(env, refs, kept, since, w.(api := Log(w.api, call)))
  {
    var w' := w.(api := Log(w.api, call));
    AgreementSurvivesLogging(env, refs, kept, since, w, w', except);
    if except != {} {
      assert w'.api.audit[|w.api.audit|] == call;
      assert BotchedSince(w'.api.audit, since, call.id);
      assert Disturbed(env, w'.api.audit, since, call.id);
    }
  }

  lemma DroppedByOneCall(a: seq<Call>, b: seq<Call>, id: Id, ok: bool, origin: Origin)
    requires a <= b && forall i :: |a| <= i < |b| ==> !b[i].Deleted?
    ensures Dropped(b + [Deleted(id, ok, origin)], |a|) == if ok && origin.ByAction? then {id} else {}
  {
    var c := b + [Deleted(id, ok, origin)];
    assert forall i :: |a| <= i < |b| ==> c[i] == b[i];
    assert c[|b|] == Deleted(id, ok, origin);
  }

  /** A whole Delete: on success the target is gone from server and cache and from
      what is to be kept; on failure nothing is lost but the target counts as botched. */
  lemma DeleteCallAgreement(
    env: Env, refs: iset<Ref>, kept: set<Id>, since: nat, w: World, o: Obj, attempts: int, origin: Origin)
    requires Separated(refs) && Agrees(env, refs, kept, since, w)
    requires RefOf(Settle(env.scopes, env.namespace, o)) in refs
    ensures var (w', e) := DeleteCall(env, w, o, attempts, origin);
            var id := Target(env, o);
            && w.api.audit <= w'.api.audit
            && Agrees(env, refs, if e == {} then kept - {id} else kept, since, w')
            && (e == {} ==> id !in w'.api.objects && AppliedKey(Settle(env.scopes, env.namespace, o)) !in w'.applied)
            && Dropped(w'.api.audit, |w.api.audit|) == (if e == {} && origin.ByAction? then {id} else {})
  {
    hide Agrees;
    hide Separated;
    hide Retry;
    hide Attempt;
    hide AppliedKey;
    hide AgreesBut;
    hide Dropped;
    var settled := Settle(env.scopes, env.namespace, o);
    var P: Claim := (t: Thread) => Deleting(env, refs, kept, since, w, settled, t);
    var Q: Claim := (t: Thread) => DeletionDone(env, refs, kept, since, w, settled, t);
    forall t {:trigger Attempt(env, DeleteOp, t)} | P(t)
      ensures (Attempt(env, DeleteOp, t).1 != {} ==> P(Attempt(env, DeleteOp, t).0))
           && (Attempt(env, DeleteOp, t).1 == {} ==> Q(Attempt(env, DeleteOp, t).0))
    {
      DeleteAttemptKeepsAgreement(env, refs, kept, since, w, settled, t);
    }
    WeakenAgreement(env, refs, kept, since, w, {IdOf(env.scopes, settled)});
    RetryTriple(env, WritePolicies(attempts), DeleteOp, Start(w, o), P, Q);
    var (t, e) := Retry(env, WritePolicies(attempts), DeleteOp, Start(w, o));
    var id := Target(env, o);
    DroppedByOneCall(w.api.audit, t.world.api.audit, id, e == {}, origin);
    if e == {} {
      WeakenAgreement(env, refs, kept - {id}, since, t.world, {});
      LoggedResult(env, refs, kept - {id}, since, t.world, Deleted(id, true, origin), {});
    } else {
      LoggedResult(env, refs, kept, since, t.world, Deleted(id, false, origin), {id});
    }
  }

  lemma WeakenAgreement(env: Env, refs: iset<Ref>, kept: set<Id>, since: nat, w: World, except: set<Id>)
    requires Agrees(env, refs, kept, since, w)
    ensures AgreesBut(env, refs, kept, since, w, except)
  {
  }

  /** More may be kept. */
  lemma KeepingMoreAgrees(env: Env, refs: iset<Ref>, kept: set<Id>, more: set<Id>, since: nat, w: World)
    requires Agrees(env, refs, kept, since, w) && kept <= more
    ensures Agrees(env, refs, more, since, w)
  {
  }

  // ---- whole operations ----

  /** One stretch of a run: whatever was to be kept before is still to be kept,
      but for what delete actions removed meanwhile, and the cache still agrees. */
  ghost predicate Evolves(env: Env, refs: iset<Ref>, since: nat, w: World, w': World) {
    && w.api.audit <= w'.api.audit
    && forall kept :: Agrees(env, refs, kept, since, w)
         ==> Agrees(env, refs, kept - Dropped(w'.api.audit, |w.api.audit|), since, w')
  }

  lemma EvolvesRefl(env: Env, refs: iset<Ref>, since: nat, w: World)
    ensures Evolves(env, refs, since, w, w)
  {
    assert Dropped(w.api.audit, |w.api.audit|) == {};
    assert forall kept: set<Id> :: kept - {} == kept;
  }

  lemma DroppedSplits(a: seq<Call>, b: seq<Call>, since: nat)
    requires since <= |a| && a <= b
    ensures Dropped(b, since) == Dropped(a, since) + Dropped(b, |a|)
  {
    assert forall i :: 0 <= i < |a| ==> a[i] == b[i];
  }

  lemma EvolvesTrans(env: Env, refs: iset<Ref>, since: nat, w: World, w': World, w'': World)
    requires Evolves(env, refs, since, w, w') && Evolves(env, refs, since, w', w'')
    ensures Evolves(env, refs, since, w, w'')
  {
    hide Agrees;
    hide Dropped;
    var first, second := Dropped(w'.api.audit, |w.api.audit|), Dropped(w''.api.audit, |w'.api.audit|);
    DroppedSplits(w'.api.audit, w''.api.audit, |w.api.audit|);
    forall kept | Agrees(env, refs, kept, since, w)
      ensures Agrees(env, refs, kept - Dropped(w''.api.audit, |w.api.audit|), since, w'')
    {
      assert kept - Dropped(w''.api.audit, |w.api.audit|) == kept - first - second;
    }
  }

  /** No change to the object set, the cache, or the delete results. */
  ghost predicate Calm(w: World, w': World) {
    Quiet(w.api, w'.api) && w'.applied == w.applied && w'.api.objects.Keys == w.api.objects.Keys
  }

  lemma QuietDropsNothing(a: Api, b: Api)
    requires Quiet(a, b)
    ensures Dropped(b.audit, |a.audit|) == {}
  {
  }

  lemma CalmEvolves(env: Env, refs: iset<Ref>, since: nat, w: World, w': World)
    requires Calm(w, w')
    ensures Evolves(env, refs, since, w, w')
  {
    hide AgreesBut;
    QuietDropsNothing(w.api, w'.api);
    forall kept | Agrees(env, refs, kept, since, w)
      ensures Agrees(env, refs, kept - Dropped(w'.api.audit, |w.api.audit|), since, w')
    {
      AgreementSurvivesLogging(env, refs, kept, since, w, w', {});
      assert kept - Dropped(w'.api.audit, |w.api.audit|) == kept;
    }
  }

  lemma CalmPatch(env: Env, patches: seq<string>, w: World, o: Obj)
    ensures Calm(w, PatchOnce(env, patches, w, o).0)
  {
    hide IdOf;
  }

  lemma CalmCheck(env: Env, conditions: seq<string>, w: World, o: Obj)
    ensures Calm(w, CheckOnce(env, conditions, w, o).0)
  {
    hide IdOf;
    hide Resolve;
    hide CheckConditions;
    ResolveShape(env, w, o);
  }

  /** Patch, assert and exec attempts never change which objects exist. */
  lemma CalmAttempt(env: Env, op: Op, w0: World, t: Thread)
    requires op.PatchOp? || op.CheckOp? || op.ExecOp?
    requires Calm(w0, t.world)
    ensures Calm(w0, Attempt(env, op, t).0.world)
  {
    hide PatchOnce;
    hide CheckOnce;
    match op
    case PatchOp(patches) => CalmPatch(env, patches, t.world, t.obj);
    case CheckOp(conditions) => CalmCheck(env, conditions, t.world, t.obj);
    case ExecOp =>
  }

  lemma CalmRetry(env: Env, policies: seq<Policy>, op: Op, w: World, o: Obj)
    requires Positive(policies) && (op.PatchOp? || op.CheckOp? || op.ExecOp?)
    ensures Calm(w, Retry(env, policies, op, Start(w, o)).0.world)
  {
    assert Calm(w, w);
    hide Attempt;
    hide Retry;
    hide Calm;
    var P: Claim := (t: Thread) => Calm(w, t.world);
    forall t {:trigger Attempt(env, op, t)} | P(t) ensures P(Attempt(env, op, t).0) {
      CalmAttempt(env, op, w, t);
    }
    RetryTriple(env, policies, op, Start(w, o), P, P);
  }

  lemma CalmOperations(env: Env, w: World, o: Obj, texts: seq<string>, attempts: int, flag: bool)
    ensures Calm(w, Patch(env, w, o, texts, attempts).0)
    ensures Calm(w, Check(env, w, o, texts, attempts).0)
    ensures Calm(w, Exec(env, w, o, attempts).0)
    ensures Calm(w, WaitFor(env, w, o, texts, flag).0)
  {
    hide Retry;
    hide AppliedKey;
    hide Waiting.Wait;
    var (w1, settled, e) := Resolve(env, w, o);
    CalmRetry(env, PatchPolicies(attempts), PatchOp(texts), w1, settled);
    CalmRetry(env, CheckPolicies(attempts), CheckOp(texts), w, o);
    CalmRetry(env, CheckPolicies(attempts), ExecOp, w, o);
  }

  /** Ensure with caching on. */
  lemma EnsureEvolves(
    env: Env, refs: iset<Ref>, since: nat, w: World, o: Obj, annotations: map<string, string>, attempts: int)
    requires Separated(refs)
    requires RefOf(Settle(env.scopes, env.namespace, o)) in refs
    ensures Evolves(env, refs, since, w, Ensure(env, w, o, annotations, true, attempts).0)
  {
    var w' := Ensure(env, w, o, annotations, true, attempts).0;
    if env.dryRun {
      EvolvesRefl(env, refs, since, w);
    } else {
      EnsureRetryQuiet(env, w, o, annotations, attempts);
      QuietDropsNothing(w.api, w'.api);
      forall kept | Agrees(env, refs, kept, since, w)
        ensures Agrees(env, refs, kept - Dropped(w'.api.audit, |w.api.audit|), since, w')
      {
        EnsureAgreement(env, refs, kept, since, w, o, annotations, attempts);
        assert kept - Dropped(w'.api.audit, |w.api.audit|) == kept;
      }
    }
  }

  lemma EnsureAttemptQuiet(env: Env, w0: World, annotations: map<string, string>, t: Thread)
    requires Quiet(w0.api, t.world.api)
    ensures Quiet(w0.api, Attempt(env, EnsureOp(annotations, true), t).0.world.api)
  {
    hide EnsureOnce;
    EnsureOnceFailing(env, annotations, t.world, t.obj);
  }

  lemma EnsureRetryQuiet(env: Env, w: World, o: Obj, annotations: map<string, string>, attempts: int)
    ensures Quiet(w.api, Retry(env, WritePolicies(attempts), EnsureOp(annotations, true), Start(w, o)).0.world.api)
  {
    assert Quiet(w.api, w.api);
    hide Retry;
    hide Attempt;
    hide Quiet;
    hide WritePolicies;
    var op := EnsureOp(annotations, true);
    var P: Claim := (t: Thread) => Quiet(w.api, t.world.api);
    forall t {:trigger Attempt(env, op, t)} | P(t) ensures P(Attempt(env, op, t).0) {
      EnsureAttemptQuiet(env, w, annotations, t);
    }
    RetryTriple(env, WritePolicies(attempts), op, Start(w, o), P, P);
  }

  ghost predicate Ensuring(env: Env, refs: iset<Ref>, kept: set<Id>, since: nat, t: Thread) {
    Agrees(env, refs, kept, since, t.world) && RefOf(Settle(env.scopes, env.namespace, t.obj)) in refs
  }

  lemma EnsuringAttempt(
    env: Env, refs: iset<Ref>, kept: set<Id>, since: nat, annotations: map<string, string>, t: Thread)
    requires Separated(refs) && Ensuring(env, refs, kept, since, t)
    ensures Ensuring(env, refs, kept, since, Attempt(env, EnsureOp(annotations, true), t).0)
  {
    hide EnsureOnce;
    hide Agrees;
    hide Separated;
    EnsureOnceKeepsAgreement(env, refs, kept, since, annotations, t.world, t.obj);
  }

  lemma EnsureAgreement(
    env: Env, refs: iset<Ref>, kept: set<Id>, since: nat, w: World, o: Obj,
    annotations: map<string, string>, attempts: int)
    requires Separated(refs) && Agrees(env, refs, kept, since, w)
    requires RefOf(Settle(env.scopes, env.namespace, o)) in refs
    ensures Ensuring(env, refs, kept, since,
              Retry(env, WritePolicies(attempts), EnsureOp(annotations, true), Start(w, o)).0)
  {
    assert Ensuring(env, refs, kept, since, Start(w, o));
    hide Retry;
    hide Attempt;
    hide Ensuring;
    hide Separated;
    hide WritePolicies;
    hide Agrees;
    var op := EnsureOp(annotations, true);
    var P: Claim := (t: Thread) => Ensuring(env, refs, kept, since, t);
    forall t {:trigger Attempt(env, op, t)} | P(t) ensures P(Attempt(env, op, t).0) {
      EnsuringAttempt(env, refs, kept, since, annotations, t);
    }
    RetryTriple(env, WritePolicies(attempts), op, Start(w, o), P, P);
  }

  /** Delete by an action, with or without its wait. */
  lemma DeleteEvolves(env: Env, refs: iset<Ref>, since: nat, w: World, o: Obj, wait: bool, attempts: int)
    requires Separated(refs)
    requires RefOf(Settle(env.scopes, env.namespace, o)) in refs
    ensures Evolves(env, refs, since, w, Delete(env, w, o, wait, attempts, ByAction).0)
  {
    hide DeleteCall;
    hide WaitFor;
    hide AgreesBut;
    hide Dropped;
    if env.dryRun {
      EvolvesRefl(env, refs, since, w);
    } else {
      var (w', e) := DeleteCall(env, w, o, attempts, ByAction);
      DeleteCallEvolves(env, refs, since, w, o, attempts);
      if e == {} && wait {
        CalmOperations(env, w', o, [], attempts, true);
        CalmEvolves(env, refs, since, w', WaitFor(env, w', o, [], true).0);
        EvolvesTrans(env, refs, since, w, w', WaitFor(env, w', o, [], true).0);
      }
    }
  }

  lemma DeleteCallEvolves(env: Env, refs: iset<Ref>, since: nat, w: World, o: Obj, attempts: int)
    requires Separated(refs)
    requires RefOf(Settle(env.scopes, env.namespace, o)) in refs
    ensures Evolves(env, refs, since, w, DeleteCall(env, w, o, attempts, ByAction).0)
  {
    hide Retry;
    hide AgreesBut;
    hide Dropped;
    var (w', e) := DeleteCall(env, w, o, attempts, ByAction);
    DeleteGrowsLog(env, w, o, attempts, ByAction);
    forall kept | Agrees(env, refs, kept, since, w)
      ensures Agrees(env, refs, kept - Dropped(w'.api.audit, |w.api.audit|), since, w')
    {
      DeleteCallAgreement(env, refs, kept, since, w, o, attempts, ByAction);
      assert e != {} ==> kept - {} == kept;
    }
  }

  lemma DeleteAttemptQuiet(env: Env, w0: World, t: Thread)
    requires Quiet(w0.api, t.world.api)
    ensures Quiet(w0.api, Attempt(env, DeleteOp, t).0.world.api)
  {
    hide DeleteOnce;
    hide AppliedKey;
    DeleteOnceEvicts(env, t.world, t.obj);
  }

  lemma DeleteRetryQuiet(env: Env, w: World, o: Obj, attempts: int)
    ensures Quiet(w.api, Retry(env, WritePolicies(attempts), DeleteOp, Start(w, o)).0.world.api)
  {
    assert Quiet(w.api, w.api);
    hide Retry;
    hide Attempt;
    hide Quiet;
    hide WritePolicies;
    var P: Claim := (t: Thread) => Quiet(w.api, t.world.api);
    forall t {:trigger Attempt(env, DeleteOp, t)} | P(t) ensures P(Attempt(env, DeleteOp, t).0) {
      DeleteAttemptQuiet(env, w, t);
    }
    RetryTriple(env, WritePolicies(attempts), DeleteOp, Start(w, o), P, P);
  }

  lemma DeleteGrowsLog(env: Env, w: World, o: Obj, attempts: int, origin: Origin)
    ensures w.api.audit <= DeleteCall(env, w, o, attempts, origin).0.api.audit
  {
    hide Retry;
    DeleteRetryQuiet(env, w, o, attempts);
  }
}
