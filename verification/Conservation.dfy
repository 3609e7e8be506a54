/** What a run leaves in the cluster: the objects it found, plus the run
namespace, minus what delete actions removed; anything else left behind had a
failed delete or, where rejected calls can have an effect, a rejected apply that
took effect. */
module Conservation {

  import opened Errors
  import opened Objects
  import opened SafeStore
  import opened Lifecycle
  import opened CacheAgreement
  import opened Sweeping
  import opened CaseTrace
  import opened TracePreservation
  import opened Actions
  import opened Standing
  import opened SuiteRun

  // ---- the standing assumptions ----

  /** Map iteration visits every key exactly once, in any order. */
  ghost predicate FairOrder(env: Env) {
    forall t, keys :: Enumerates(env.order(t, keys), keys)
  }

  ghost predicate LiveRun(env: Env) {
    !env.dryRun && FairOrder(env)
  }

  /** The action ensures or deletes the object of this reference. */
  predicate Addresses(env: Env, ctx: Context, act: Action, r: Ref) {
    && (act.DoEnsure? || act.DoDelete?)
    && var p := Prepare(env, ctx, act);
       p.Rendered? && r == RefOf(Settle(env.scopes, env.namespace, p.obj))
  }

  /** The action is configured in a step or a hook of the case. */
  ghost predicate Configures(c: Case, act: Action) {
    exists st: MaybeStep ::
      st in c.beforeEach + c.steps + c.afterEach && st.Some? && act in Configured(st.value)
  }

  ghost predicate CaseAddresses(env: Env, ctx: Context, c: Case, r: Ref) {
    exists act :: Configures(c, act) && Addresses(env, ctx, act, r)
  }

  /** The references the case itself ensures or deletes. */
  ghost function CaseRefs(env: Env, ctx: Context, c: Case): iset<Ref> {
    iset r: Ref | CaseAddresses(env, ctx, c, r)
  }

  /** About a case: none of its references has a slash, and no two of them share
      namespace, kind and name across API groups. */
  ghost predicate Unambiguous(env: Env, ctx: Context, c: Case) {
    Separated(CaseRefs(env, ctx, c))
  }

  /** The templates the case ensures and deletes with give the object its declared name,
      and its kind and group from the template alone. */
  ghost predicate NamedAfter(
    env: Env, groups: string -> string, kinds: string -> string, ctx: Context, c: Case)
  {
    forall act :: Configures(c, act) && (act.DoEnsure? || act.DoDelete?) && Prepare(env, ctx, act).Rendered? ==>
      var o, name := Prepare(env, ctx, act).obj, TargetOf(act);
      && name in ctx.objects && o.name == name && NoSlash(o.ns)
      && o.group == groups(ctx.objects[name]) && o.kind == kinds(ctx.objects[name])
  }

  /** With such templates a case is unambiguous as soon as the names it declares, its
      kinds and the run namespace are free of slashes. */
  lemma NamedTemplatesUnambiguous(
    env: Env, groups: string -> string, kinds: string -> string, ctx: Context, c: Case)
    requires NamedAfter(env, groups, kinds, ctx, c) && NoSlash(env.namespace)
    requires forall name :: name in ctx.objects ==> NoSlash(name) && NoSlash(kinds(ctx.objects[name]))
    ensures Unambiguous(env, ctx, c)
  {
    hide Configures;
    hide Prepare;
    forall r | r in CaseRefs(env, ctx, c)
      ensures r.name in ctx.objects && r.group == groups(ctx.objects[r.name]) && SlashFree(r)
    {
      var act :| Configures(c, act) && Addresses(env, ctx, act, r);
      assert Prepare(env, ctx, act).Rendered?;
    }
  }

  // ---- every stretch of a case evolves the world ----

  lemma ExecuteEvolves(env: Env, refs: iset<Ref>, since: nat, ctx: Context, act: Action, o: Obj, w: World)
    requires Separated(refs)
    requires act.DoEnsure? || act.DoDelete? ==> RefOf(Settle(env.scopes, env.namespace, o)) in refs
    ensures Evolves(env, refs, since, w, Execute(env, ctx, act, o, w).0)
  {
    hide Evolves;
    hide Ensure;
    hide Patch;
    hide Check;
    hide Exec;
    hide WaitFor;
    hide Delete;
    hide Separated;
    match act
    case DoEnsure(s) => EnsureEvolves(env, refs, since, w, o, ctx.annotations, UserAttempts(s.attempts));
    case DoPatch(s) =>
      if s.patches == [] {
        EvolvesRefl(env, refs, since, w);
      } else {
        CalmOperations(env, w, o, s.patches, UserAttempts(s.attempts), false);
        CalmEvolves(env, refs, since, w, Patch(env, w, o, s.patches, UserAttempts(s.attempts)).0);
      }
    case DoWait(s) =>
      CalmOperations(env, w, o, s.conditions, 1, false);
      CalmEvolves(env, refs, since, w, WaitFor(env, w, o, s.conditions, false).0);
    case DoAssert(s) =>
      CalmOperations(env, w, o, s.conditions, UserAttempts(s.attempts), false);
      CalmEvolves(env, refs, since, w, Check(env, w, o, s.conditions, UserAttempts(s.attempts)).0);
    case DoLogs(s) =>
      CalmEvolves(env, refs, since, w, LogsCheck(env, w, s.policy, s.contains).0);
    case DoExec(s) =>
      CalmOperations(env, w, o, [], UserAttempts(s.attempts), false);
      CalmEvolves(env, refs, since, w, Exec(env, w, o, UserAttempts(s.attempts)).0);
    case DoDelete(s) => DeleteEvolves(env, refs, since, w, o, s.wait, UserAttempts(s.attempts));
  }

  /** Whatever the action ensures or deletes is one of the references. */
  ghost function Within(env: Env, refs: iset<Ref>): Filter {
    (ctx: Context, act: Action) => forall r :: Addresses(env, ctx, act, r) ==> r in refs
  }

  lemma PerformEvolves(env: Env, refs: iset<Ref>, since: nat, ctx: Context, act: Action, w: World)
    requires Separated(refs) && Within(env, refs)(ctx, act)
    ensures Evolves(env, refs, since, w, Perform(env, ctx, act, w).0)
  {
    hide Evolves;
    hide Execute;
    hide Separated;
    var p := Prepare(env, ctx, act);
    EvolvesRefl(env, refs, since, w);
    if !p.Unrendered? {
      var (w1, e1) := Delay(env, DelayOf(act), w);
      CalmEvolves(env, refs, since, w, w1);
      if e1 == {} && !Unusable(act) {
        var o := if p.Rendered? then p.obj else NoObject;
        if act.DoEnsure? || act.DoDelete? {
          assert Addresses(env, ctx, act, RefOf(Settle(env.scopes, env.namespace, o)));
        }
        ExecuteEvolves(env, refs, since, ctx, act, o, w1);
        EvolvesTrans(env, refs, since, w, w1, Execute(env, ctx, act, o, w1).0);
      }
    }
  }

  ghost function Evolution(env: Env, refs: iset<Ref>, since: nat): (r: Relation) {
    (w: World, w': World) => Evolves(env, refs, since, w, w')
  }

  lemma KitOfEvolves(env: Env, refs: iset<Ref>, since: nat)
    requires Separated(refs)
    ensures Preserves(KitOf(env), Evolution(env, refs, since), Within(env, refs))
  {
    hide Evolves;
    hide Perform;
    hide Separated;
    hide Addresses;
    var r := Evolution(env, refs, since);
    forall w ensures r(w, w) {
      EvolvesRefl(env, refs, since, w);
    }
    forall w, w', w'' | r(w, w') && r(w', w'') ensures r(w, w'') {
      EvolvesTrans(env, refs, since, w, w', w'');
    }
    forall ctx, act, w | Within(env, refs)(ctx, act) ensures r(w, KitOf(env).perform(ctx, act, w).0) {
      PerformEvolves(env, refs, since, ctx, act, w);
      KitUnfolds(env, ctx, act, w);
    }
  }

  /** What an action addresses does not depend on annotations. */
  lemma AddressesIgnoresAnnotations(env: Env, ctx: Context, st: Step, act: Action, r: Ref)
    ensures Addresses(env, StepContext(ctx, st), act, r) == Addresses(env, ctx, act, r)
  {
  }

  lemma OwnStepsAdmitted(env: Env, ctx: Context, c: Case, steps: seq<MaybeStep>)
    requires forall st :: st in steps ==> st in c.beforeEach + c.steps + c.afterEach
    ensures StepsAdmitted(Within(env, CaseRefs(env, ctx, c)), ctx, steps)
  {
    hide Addresses;
    hide Configured;
    var may := Within(env, CaseRefs(env, ctx, c));
    forall i | 0 <= i < |steps| && steps[i].Some? ensures StepAdmitted(may, ctx, steps[i]) {
      var st := steps[i].value;
      assert steps[i] in steps;
      forall j | 0 <= j < |Configured(st)| ensures may(StepContext(ctx, st), Configured(st)[j]) {
        var act := Configured(st)[j];
        assert Configures(c, act);
        forall r | Addresses(env, StepContext(ctx, st), act, r) ensures r in CaseRefs(env, ctx, c) {
          AddressesIgnoresAnnotations(env, ctx, st, act, r);
        }
      }
    }
  }

  lemma OwnCaseAdmitted(env: Env, ctx: Context, c: Case)
    ensures CaseAdmitted(Within(env, CaseRefs(env, ctx, c)), ctx, c)
  {
    hide StepsAdmitted;
    OwnStepsAdmitted(env, ctx, c, c.beforeEach);
    OwnStepsAdmitted(env, ctx, c, c.steps);
    OwnStepsAdmitted(env, ctx, c, c.afterEach);
  }

  lemma FreshServiceAgrees(env: Env, refs: iset<Ref>, w: World)
    requires w.applied == map[]
    ensures Agrees(env, refs, w.api.objects.Keys, |w.api.audit|, w)
  {
  }

  /** The cache agrees with what the case created since this world. */
  ghost predicate AgreesSince(env: Env, refs: iset<Ref>, w: World, w': World) {
    && w.api.audit <= w'.api.audit
    && Agrees(env, refs, w.api.objects.Keys - Dropped(w'.api.audit, |w.api.audit|), |w.api.audit|, w')
  }

  /** Cache agreement at every reachable state of a case and for every failure pattern:
      after every action of every hook and step, what is cached was seen absent and then
      applied by this case, and what is present stood before and was not dropped, or is
      cached, or had a failed delete or an apply that was rejected but took effect. */
  lemma CaseCacheAgrees(env: Env, ctx: Context, c: Case, w: World)
    requires Unambiguous(env, ctx, c) && w.applied == map[]
    ensures forall w' :: w' in CaseWorlds(KitOf(env), ctx, c, w) ==> AgreesSince(env, CaseRefs(env, ctx, c), w, w')
    ensures AgreesSince(env, CaseRefs(env, ctx, c), w, RoundsEnd(w, RunRounds(KitOf(env), ctx, c, c.steps, w)))
  {
    hide Preserves;
    hide KitOf;
    hide Separated;
    hide CaseRefs;
    hide CaseAdmitted;
    hide CaseWorlds;
    hide RunRounds;
    hide RoundsEnd;
    hide Agrees;
    hide Dropped;
    var refs, since := CaseRefs(env, ctx, c), |w.api.audit|;
    KitOfEvolves(env, refs, since);
    OwnCaseAdmitted(env, ctx, c);
    FreshServiceAgrees(env, refs, w);
    CaseKeeps(KitOf(env), Evolution(env, refs, since), Within(env, refs), ctx, c, w);
  }

  // ---- one stretch of a run ----

  /** Whatever stood or was added is still there, unless it was released. */
  ghost predicate NothingLost(env: Env, extra: set<Id>, a: Api, b: Api) {
    && a.audit <= b.audit
    && a.objects.Keys + extra - Released(env, b.audit, |a.audit|) <= b.objects.Keys
  }

  /** Whatever is there stood or was added and was not dropped, or is excused. */
  ghost predicate NothingLeft(env: Env, extra: set<Id>, a: Api, b: Api) {
    && a.audit <= b.audit
    && forall id :: id in b.objects.Keys && id !in a.objects.Keys + extra - Dropped(b.audit, |a.audit|)
         ==> Disturbed(env, b.audit, |a.audit|, id)
  }

  ghost predicate Conserves(env: Env, extra: set<Id>, a: Api, b: Api) {
    NothingLost(env, extra, a, b) && NothingLeft(env, extra, a, b)
  }

  lemma NothingHappens(env: Env, a: Api)
    ensures Conserves(env, {}, a, a)
  {
  }

  lemma LostTrans(env: Env, first: set<Id>, second: set<Id>, a: Api, b: Api, c: Api)
    requires NothingLost(env, first, a, b) && NothingLost(env, second, b, c)
    ensures NothingLost(env, first + second, a, c)
  {
    hide Released;
    ReleasedSplits(env, b.audit, c.audit, |a.audit|);
  }

  /** Two stretches in a row, if the first did not drop what the second adds. */
  lemma LeftTrans(env: Env, first: set<Id>, second: set<Id>, a: Api, b: Api, c: Api)
    requires NothingLeft(env, first, a, b) && NothingLeft(env, second, b, c)
    requires second !! Dropped(b.audit, |a.audit|)
    ensures NothingLeft(env, first + second, a, c)
  {
    hide Dropped;
    hide Disturbed;
    DroppedSplits(b.audit, c.audit, |a.audit|);
    forall id | id in c.objects.Keys && id !in a.objects.Keys + (first + second) - Dropped(c.audit, |a.audit|)
      ensures Disturbed(env, c.audit, |a.audit|, id)
    {
      if Disturbed(env, c.audit, |b.audit|, id) {
        DisturbanceRemembered(env, c.audit, c.audit, |a.audit|, |b.audit|, id);
      } else {
        DisturbanceRemembered(env, b.audit, c.audit, |a.audit|, |a.audit|, id);
      }
    }
  }

  // ---- one case ----

  /** A case with its cleanup loses nothing that stood before it. */
  lemma CaseLosesNothing(env: Env, ctx: Context, c: Case, w: World)
    requires w.applied == map[]
    ensures NothingLost(env, {}, w.api, RunCase(KitOf(env), ctx, c, w).end.api)
  {
    hide RunCase;
    hide KitOf;
    hide Released;
    CaseStandsSafe(env, ctx, c, w);
  }

  /** And leaves nothing behind. */
  lemma CaseLeavesNothing(env: Env, ctx: Context, c: Case, w: World)
    requires LiveRun(env) && Unambiguous(env, ctx, c) && w.applied == map[]
    ensures NothingLeft(env, {}, w.api, RunCase(KitOf(env), ctx, c, w).end.api)
  {
    hide RunRounds;
    hide RoundsEnd;
    hide RunningReport;
    hide Cleanup;
    hide CaseRefs;
    hide Separated;
    hide Dropped;
    hide Agrees;
    hide Disturbed;
    var w1 := RoundsEnd(w, RunRounds(KitOf(env), ctx, c, c.steps, w));
    NothingHappens(env, w.api);
    CaseCacheAgrees(env, ctx, c, w);
    KitSweeps(env, w1);
    SweptLeavesNothing(env, CaseRefs(env, ctx, c), w, w1);
  }

  lemma SweptLeavesNothing(env: Env, refs: iset<Ref>, w: World, w1: World)
    requires LiveRun(env) && Separated(refs) && AgreesSince(env, refs, w, w1)
    ensures NothingLeft(env, {}, w.api, Cleanup(env, w1).0.api)
  {
    hide Agrees;
    hide Dropped;
    hide Cleanup;
    hide Separated;
    hide Disturbed;
    var since := |w.api.audit|;
    var kept := w.api.objects.Keys - Dropped(w1.api.audit, since);
    CleanupLeaves(env, refs, kept, since, w1);
    var w2 := Cleanup(env, w1).0;
    DroppedSplits(w1.api.audit, w2.api.audit, since);
    assert w.api.objects.Keys + {} - Dropped(w2.api.audit, since) == kept;
  }

  /** A case with its cleanup conserves what it found. */
  lemma CaseConserves(env: Env, ctx: Context, c: Case, w: World)
    requires LiveRun(env) && Unambiguous(env, ctx, c) && w.applied == map[]
    ensures Conserves(env, {}, w.api, RunCase(KitOf(env), ctx, c, w).end.api)
  {
    hide *;
    CaseLosesNothing(env, ctx, c, w);
    CaseLeavesNothing(env, ctx, c, w);
    ConservesBoth(env, {}, w.api, RunCase(KitOf(env), ctx, c, w).end.api);
  }

  lemma ConservesBoth(env: Env, extra: set<Id>, a: Api, b: Api)
    requires NothingLost(env, extra, a, b) && NothingLeft(env, extra, a, b)
    ensures Conserves(env, extra, a, b)
  {
  }

  // ---- the run namespace ----

  function NamespaceId(env: Env): Id {
    Target(env, NamespaceObject(env))
  }

  /** To a server that maps namespaces as cluster-wide, the run namespace is the namespace
      object with the configured name. */
  lemma NamespaceIdIs(env: Env)
    requires env.scopes("", "Namespace").ClusterWide?
    ensures NamespaceId(env) == Id("", "Namespace", "", env.namespace)
  {
  }

  /** Nothing but the run namespace can be new, and it is excused if it is. */
  ghost predicate NamespaceAwaited(env: Env, w: World, t: Thread) {
    && Quiet(w.api, t.world.api) && t.world.applied == w.applied
    && Settle(env.scopes, env.namespace, t.obj) == Settle(env.scopes, env.namespace, NamespaceObject(env))
    && (|| t.world.api.objects.Keys == w.api.objects.Keys
        || (&& t.world.api.objects.Keys == w.api.objects.Keys + {NamespaceId(env)}
            && Disturbed(env, t.world.api.audit, |w.api.audit|, NamespaceId(env))))
  }

  ghost predicate NamespaceThere(env: Env, w: World, t: Thread) {
    && Quiet(w.api, t.world.api) && t.world.applied == w.applied
    && t.world.api.objects.Keys == w.api.objects.Keys + {NamespaceId(env)}
  }

  lemma NamespaceAttempt(env: Env, w: World, t: Thread)
    requires NamespaceAwaited(env, w, t)
    ensures var (t', e) := Attempt(env, EnsureOp(map[], false), t);
            if e == {} then NamespaceThere(env, w, t') else NamespaceAwaited(env, w, t')
  {
    hide EnsureOnce;
    hide AppliedKey;
    hide BotchedSince;
    hide LandedSince;
    EnsureOnceCases(env, map[], false, t.world, t.obj);
    assert t.obj.annotations + map[] == t.obj.annotations;
    var settled := Settle(env.scopes, env.namespace, t.obj);
    assert Annotate(settled, map[]) == settled by { assert settled.annotations + map[] == settled.annotations; }
    var (t', e) := Attempt(env, EnsureOp(map[], false), t);
    var a, b, id := t.world.api.audit, t'.world.api.audit, NamespaceId(env);
    if e != {} && Disturbed(env, a, |w.api.audit|, id) {
      DisturbanceRemembered(env, a, b, |w.api.audit|, |w.api.audit|, id);
    }
    if e != {} && Disturbed(env, b, |a|, id) {
      DisturbanceRemembered(env, b, b, |w.api.audit|, |a|, id);
    }
  }

  /** Ensuring the run namespace adds nothing else, adds it when it succeeds, and never
      caches it; if it fails and the namespace is new all the same, that is excused. */
  lemma NamespaceEnsured(env: Env, w: World)
    requires !env.dryRun
    ensures var (w', e) := Ensure(env, w, NamespaceObject(env), map[], false, 1);
            var keys, id := w.api.objects.Keys, NamespaceId(env);
            && Quiet(w.api, w'.api) && w'.applied == w.applied
            && (w'.api.objects.Keys == keys + {id}
                || (e != {} && w'.api.objects.Keys == keys))
            && (e != {} && id in w'.api.objects && id !in keys ==> Disturbed(env, w'.api.audit, |w.api.audit|, id))
  {
    hide Retry;
    hide Attempt;
    hide WritePolicies;
    hide Disturbed;
    var op, o := EnsureOp(map[], false), NamespaceObject(env);
    assert NamespaceAwaited(env, w, Start(w, o));
    var P: Claim := (t: Thread) => NamespaceAwaited(env, w, t);
    var Q: Claim := (t: Thread) => NamespaceThere(env, w, t);
    forall t {:trigger Attempt(env, op, t)} | P(t)
      ensures (Attempt(env, op, t).1 != {} ==> P(Attempt(env, op, t).0))
           && (Attempt(env, op, t).1 == {} ==> Q(Attempt(env, op, t).0))
    {
      NamespaceAttempt(env, w, t);
    }
    RetryTriple(env, WritePolicies(1), op, Start(w, o), P, Q);
    var (t, e) := Retry(env, WritePolicies(1), op, Start(w, o));
    assert if e == {} then NamespaceThere(env, w, t) else NamespaceAwaited(env, w, t);
  }

  // ---- case files and suites ----

  /** The case file gets as far as running its case. */
  predicate Enters(env: Env, conf: Conf, file: CaseFile, a: Api) {
    file.parsed.Some? && Selected(conf, file.parsed.value) && Prelude(env, conf, a).1 == {}
  }

  /** The run namespace, if there is to be one and it was ensured. */
  function NamespaceOf(env: Env, wanted: bool, entered: bool): set<Id> {
    if wanted && entered && !env.dryRun then {NamespaceId(env)} else {}
  }

  lemma PreludeConserves(env: Env, conf: Conf, a: Api)
    ensures var (w, e) := Prelude(env, conf, a);
            && Quiet(a, w.api) && w.applied == map[]
            && Conserves(env, NamespaceOf(env, conf.ensureNamespace, e == {}), a, w.api)
            && NamespaceOf(env, conf.ensureNamespace, e == {}) <= w.api.objects.Keys
  {
    hide Ensure;
    hide NamespaceId;
    hide Disturbed;
    hide Released;
    hide Dropped;
    var (w0, e0) := Connect(env, a);
    var (w, e) := Prelude(env, conf, a);
    if !env.dryRun {
      NamespaceEnsured(env, w0);
    } else {
      DryEnsure(env, w0);
    }
    QuietDropsNothing(a, w.api);
    QuietReleasesNothing(env, a, w.api);
  }

  lemma DryEnsure(env: Env, w: World)
    requires env.dryRun
    ensures Ensure(env, w, NamespaceObject(env), map[], false, 1) == (w, {})
  {
  }

  /** The case of the file, if it runs, is unambiguous. */
  ghost predicate FileUnambiguous(env: Env, conf: Conf, file: CaseFile) {
    file.parsed.Some? && Selected(conf, file.parsed.value)
    ==> Unambiguous(env, CaseContext(conf, file.parsed.value), file.parsed.value)
  }

  ghost predicate FilesUnambiguous(env: Env, conf: Conf, files: seq<CaseFile>) {
    forall i :: 0 <= i < |files| ==> FileUnambiguous(env, conf, files[i])
  }

  lemma FileLosesNothing(env: Env, conf: Conf, file: CaseFile, a: Api)
    ensures NothingLost(env, NamespaceOf(env, conf.ensureNamespace, Enters(env, conf, file, a)), a,
              RunFile(env, conf, file, a).post)
  {
    hide Prelude;
    hide RunCase;
    hide KitOf;
    hide NamespaceId;
    hide FinishCase;
    hide Released;
    hide Dropped;
    hide Disturbed;
    PreludeConserves(env, conf, a);
    NothingHappens(env, a);
    var w := Prelude(env, conf, a).0;
    if Enters(env, conf, file, a) {
      var c := file.parsed.value;
      CaseLosesNothing(env, CaseContext(conf, c), c, w);
      var extra := NamespaceOf(env, conf.ensureNamespace, true);
      LostTrans(env, extra, {}, a, w.api, RunCase(KitOf(env), CaseContext(conf, c), c, w).end.api);
      assert extra + {} == extra;
    }
  }

  lemma FileLeavesNothing(env: Env, conf: Conf, file: CaseFile, a: Api)
    requires LiveRun(env) && FileUnambiguous(env, conf, file)
    ensures NothingLeft(env, NamespaceOf(env, conf.ensureNamespace, Enters(env, conf, file, a)), a,
              RunFile(env, conf, file, a).post)
  {
    hide Prelude;
    hide RunCase;
    hide KitOf;
    hide NamespaceId;
    hide FinishCase;
    hide Released;
    hide Dropped;
    hide Disturbed;
    hide Unambiguous;
    hide LiveRun;
    PreludeConserves(env, conf, a);
    NothingHappens(env, a);
    var w := Prelude(env, conf, a).0;
    if Enters(env, conf, file, a) {
      var c := file.parsed.value;
      CaseLeavesNothing(env, CaseContext(conf, c), c, w);
      var extra := NamespaceOf(env, conf.ensureNamespace, true);
      LeftTrans(env, extra, {}, a, w.api, RunCase(KitOf(env), CaseContext(conf, c), c, w).end.api);
      assert extra + {} == extra;
    }
  }

  /** Some case file of the loop got as far as running its case. */
  predicate AnyEnters(env: Env, conf: Conf, files: seq<CaseFile>, a: Api)
    decreases |files|
  {
    if files == [] then false
    else
      var r := RunFile(env, conf, files[0], a);
      Enters(env, conf, files[0], a) || (!Interrupts(r.err) && AnyEnters(env, conf, files[1..], r.post))
  }

  lemma NamespaceEither(env: Env, wanted: bool, one: bool, other: bool)
    ensures NamespaceOf(env, wanted, one) + NamespaceOf(env, wanted, other) == NamespaceOf(env, wanted, one || other)
  {
    hide NamespaceId;
  }

  /** For every list of case files, every run of them and every pattern of failures. */
  lemma {:induction false} FilesLoseNothing(env: Env, conf: Conf, files: seq<CaseFile>, a: Api)
    ensures NothingLost(env, NamespaceOf(env, conf.ensureNamespace, AnyEnters(env, conf, files, a)), a,
              FilesEnd(a, RunFiles(env, conf, files, a)))
    decreases |files|
  {
    hide RunFile;
    hide Enters;
    hide NothingLost;
    hide NamespaceOf;
    if files == [] {
      NothingLostYet(env, conf.ensureNamespace, a);
    } else {
      var r := RunFile(env, conf, files[0], a);
      FileLosesNothing(env, conf, files[0], a);
      if !Interrupts(r.err) {
        FilesLoseNothing(env, conf, files[1..], r.post);
        var one, other := Enters(env, conf, files[0], a), AnyEnters(env, conf, files[1..], r.post);
        LostTrans(env, NamespaceOf(env, conf.ensureNamespace, one), NamespaceOf(env, conf.ensureNamespace, other),
          a, r.post, FilesEnd(r.post, RunFiles(env, conf, files[1..], r.post)));
        NamespaceEither(env, conf.ensureNamespace, one, other);
      }
    }
  }

  lemma NothingLostYet(env: Env, wanted: bool, a: Api)
    ensures NothingLost(env, NamespaceOf(env, wanted, false), a, a)
    ensures NothingLeft(env, NamespaceOf(env, wanted, false), a, a)
  {
    NothingHappens(env, a);
  }

  lemma {:induction false} FilesLeaveNothing(env: Env, conf: Conf, files: seq<CaseFile>, a: Api)
    requires LiveRun(env) && FilesUnambiguous(env, conf, files)
    requires conf.ensureNamespace ==>
      NamespaceId(env) !in Dropped(FilesEnd(a, RunFiles(env, conf, files, a)).audit, |a.audit|)
    ensures NothingLeft(env, NamespaceOf(env, conf.ensureNamespace, AnyEnters(env, conf, files, a)), a,
              FilesEnd(a, RunFiles(env, conf, files, a)))
    decreases |files|
  {
    hide RunFile;
    hide Enters;
    hide NothingLeft;
    hide FileUnambiguous;
    hide Dropped;
    hide LiveRun;
    hide NamespaceId;
    if files == [] {
      NothingLostYet(env, conf.ensureNamespace, a);
    } else {
      var r := RunFile(env, conf, files[0], a);
      FileLeavesNothing(env, conf, files[0], a);
      if !Interrupts(r.err) {
        var end := FilesEnd(r.post, RunFiles(env, conf, files[1..], r.post));
        FileLosesNothing(env, conf, files[0], a);
        FilesLoseNothing(env, conf, files[1..], r.post);
        hide NothingLost;
        DroppedSplits(r.post.audit, end.audit, |a.audit|);
        FilesLeaveNothing(env, conf, files[1..], r.post);
        var one, other := Enters(env, conf, files[0], a), AnyEnters(env, conf, files[1..], r.post);
        LeftTrans(env, NamespaceOf(env, conf.ensureNamespace, one), NamespaceOf(env, conf.ensureNamespace, other),
          a, r.post, end);
        NamespaceEither(env, conf.ensureNamespace, one, other);
      }
    }
  }

  ghost predicate SuiteUnambiguous(env: Env, conf: Conf, dir: SuiteDir) {
    dir.cases.Listing? ==> FilesUnambiguous(env, conf, CaseFiles(dir.cases.entries))
  }

  predicate SuiteEnters(env: Env, conf: Conf, dir: SuiteDir, a: Api) {
    dir.templatesLoad && dir.cases.Listing? && AnyEnters(env, conf, CaseFiles(dir.cases.entries), a)
  }

  /** The run namespace, if the suite runs a case. */
  function SuiteNamespace(env: Env, conf: Conf, dir: SuiteDir, a: Api): set<Id> {
    NamespaceOf(env, conf.ensureNamespace, SuiteEnters(env, conf, dir, a))
  }

  /** No suite loses what stood before it, with nothing assumed. */
  lemma SuiteLosesNothing(env: Env, conf: Conf, dir: SuiteDir, a: Api)
    ensures NothingLost(env, SuiteNamespace(env, conf, dir, a), a, RunSuite(env, conf, dir, a).post)
  {
    hide RunFiles;
    hide AnyEnters;
    hide NothingLost;
    hide CaseFiles;
    hide FinishSuite;
    hide SuiteErr;
    hide NamespaceOf;
    NothingLostYet(env, conf.ensureNamespace, a);
    if dir.templatesLoad && dir.cases.Listing? {
      FilesLoseNothing(env, conf, CaseFiles(dir.cases.entries), a);
    }
  }

  /** Whole-suite conservation: for every suite and every failure pattern, what stood is
      there unless it was released, and what is there is the cluster before plus the run
      namespace minus what delete actions removed, up to excused objects. */
  lemma SuiteConserves(env: Env, conf: Conf, dir: SuiteDir, a: Api)
    requires LiveRun(env) && SuiteUnambiguous(env, conf, dir)
    requires conf.ensureNamespace ==>
      NamespaceId(env) !in Dropped(RunSuite(env, conf, dir, a).post.audit, |a.audit|)
    ensures Conserves(env, SuiteNamespace(env, conf, dir, a), a, RunSuite(env, conf, dir, a).post)
  {
    hide RunFiles;
    hide AnyEnters;
    hide NothingLost;
    hide NothingLeft;
    hide LiveRun;
    hide FilesUnambiguous;
    hide Dropped;
    hide CaseFiles;
    hide FinishSuite;
    hide SuiteErr;
    hide NamespaceId;
    hide NamespaceOf;
    SuiteLosesNothing(env, conf, dir, a);
    NothingLostYet(env, conf.ensureNamespace, a);
    if dir.templatesLoad && dir.cases.Listing? {
      FilesLeaveNothing(env, conf, CaseFiles(dir.cases.entries), a);
    }
  }

  /** No Delete, by an action or by a sweep, failed. */
  ghost predicate NoDeleteFailed(audit: seq<Call>, since: nat) {
    forall i :: since <= i < |audit| && audit[i].Deleted? ==> audit[i].ok
  }

  /** If rejected calls have no effect and no delete failed, conservation is exact. */
  lemma ConservesExactly(env: Env, extra: set<Id>, a: Api, b: Api)
    requires FailuresHaveNoEffect(env) && NoDeleteFailed(b.audit, |a.audit|) && Conserves(env, extra, a, b)
    ensures b.objects.Keys == a.objects.Keys + extra - Dropped(b.audit, |a.audit|)
  {
    hide FailuresHaveNoEffect;
    hide Dropped;
    hide Released;
    ReleasedIsDropped(env, b.audit, |a.audit|);
  }

  lemma SuiteConservesExactly(env: Env, conf: Conf, dir: SuiteDir, a: Api)
    requires LiveRun(env) && FailuresHaveNoEffect(env) && SuiteUnambiguous(env, conf, dir)
    requires var b := RunSuite(env, conf, dir, a).post;
             && NoDeleteFailed(b.audit, |a.audit|)
             && (conf.ensureNamespace ==> NamespaceId(env) !in Dropped(b.audit, |a.audit|))
    ensures var b := RunSuite(env, conf, dir, a).post;
            b.objects.Keys == a.objects.Keys + SuiteNamespace(env, conf, dir, a) - Dropped(b.audit, |a.audit|)
  {
    hide *;
    SuiteConserves(env, conf, dir, a);
    ConservesExactly(env, SuiteNamespace(env, conf, dir, a), a, RunSuite(env, conf, dir, a).post);
  }
}
