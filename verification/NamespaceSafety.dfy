/** The run namespace is never cleaned up. */
module NamespaceSafety {

  import opened Lifecycle
  import opened CacheAgreement
  import opened CaseTrace
  import opened TracePreservation
  import opened Actions
  import opened Standing
  import opened SuiteRun
  import opened Conservation
  import opened DryRun

  /** The worlds of a case that a file runs: after each action, and after the cleanup. */
  function FileWorlds(env: Env, conf: Conf, c: Case, a: Api): seq<World> {
    var w, ctx := Prelude(env, conf, a).0, CaseContext(conf, c);
    CaseWorlds(KitOf(env), ctx, c, w) + [RunCase(KitOf(env), ctx, c, w).end]
  }

  /** On every run of a case file with a run namespace, after every action of every hook
      and step and after the cleanup, the namespace is not in the applied cache and is in
      the cluster, unless a delete action released it: whatever the steps ensure, the
      Namespace object itself or one with its cache key included. On a dry run nothing is
      ever cached. */
  lemma RunNamespaceNeverCached(env: Env, conf: Conf, file: CaseFile, a: Api, w': World)
    requires conf.ensureNamespace && Enters(env, conf, file, a)
    ensures w' in FileWorlds(env, conf, file.parsed.value, a)
        && NamespaceId(env) !in Released(env, w'.api.audit, |a.audit|)
      ==> !Cached(env, w', NamespaceId(env)) && (!env.dryRun ==> NamespaceId(env) in w'.api.objects)
  {
    hide Prelude;
    hide KitOf;
    hide RunCase;
    hide CaseWorlds;
    hide Released;
    hide NamespaceId;
    hide Conserves;
    var c, w, id := file.parsed.value, Prelude(env, conf, a).0, NamespaceId(env);
    var ctx := CaseContext(conf, c);
    PreludeConserves(env, conf, a);
    if w' in FileWorlds(env, conf, c, a) && id !in Released(env, w'.api.audit, |a.audit|) {
      if env.dryRun {
        DryCaseStill(env, ctx, c, w);
      } else {
        CaseStandsSafe(env, ctx, c, w);
        ReleasedSplits(env, w.api.audit, w'.api.audit, |a.audit|);
        StandingObjectsNeverCached(env, ctx, c, w, w', id);
      }
    }
  }
}
