/** What a whole run of suites, one after the other, leaves in the cluster. */
module RunConservation {

  import opened Objects
  import opened Lifecycle
  import opened CacheAgreement
  import opened Standing
  import opened SuiteRun
  import opened Conservation
  import opened SuiteViews
  import opened ImageRun

  /** The environment of one suite: its own templates render its objects. */
  function SuiteEnv(env: Env, lib: Library, v: SuiteView): Env {
    env.(render := lib.render(v.templates))
  }

  function SuiteConf(conf: RunConf, v: SuiteView): Conf {
    Conf(conf.ensureNamespace, conf.tags, map[TestAnnotation := v.name])
  }

  /** Every case of the suite, rendered from its own templates, is unambiguous. */
  ghost predicate ViewUnambiguous(env: Env, lib: Library, conf: RunConf, v: SuiteView) {
    SuiteUnambiguous(SuiteEnv(env, lib, v), SuiteConf(conf, v), SuiteDirOf(lib, v))
  }

  ghost predicate RunUnambiguous(env: Env, lib: Library, conf: RunConf, views: seq<SuiteView>) {
    forall i :: 0 <= i < |views| ==> ViewUnambiguous(env, lib, conf, views[i])
  }

  /** Templates have no say in what the namespace is, whether rejected calls have an
      effect, or how the run goes about its maps. */
  lemma TemplatesDoNotMatter(env: Env, lib: Library, v: SuiteView)
    ensures var suite := SuiteEnv(env, lib, v);
            && NamespaceId(suite) == NamespaceId(env) && suite.dryRun == env.dryRun
            && (LiveRun(env) ==> LiveRun(suite)) && FailuresHaveNoEffect(suite) == FailuresHaveNoEffect(env)
  {
  }

  lemma SameExcuses(env: Env, lib: Library, v: SuiteView, extra: set<Id>, a: Api, b: Api)
    ensures NothingLost(SuiteEnv(env, lib, v), extra, a, b) <==> NothingLost(env, extra, a, b)
    ensures NothingLeft(SuiteEnv(env, lib, v), extra, a, b) <==> NothingLeft(env, extra, a, b)
  {
    hide FailuresHaveNoEffect;
    hide BotchedSince;
    hide LandedSince;
    hide Dropped;
    TemplatesDoNotMatter(env, lib, v);
    assert forall call :: Releases(SuiteEnv(env, lib, v), call) == Releases(env, call);
    assert Released(SuiteEnv(env, lib, v), b.audit, |a.audit|) == Released(env, b.audit, |a.audit|);
  }

  predicate ViewEnters(env: Env, lib: Library, conf: RunConf, v: SuiteView, a: Api) {
    SuiteEnters(SuiteEnv(env, lib, v), SuiteConf(conf, v), SuiteDirOf(lib, v), a)
  }

  /** Some suite got as far as running a case. */
  predicate RunEnters(env: Env, lib: Library, conf: RunConf, views: seq<SuiteView>, a: Api) {
    if views == [] then false
    else
      var init, v := views[..|views| - 1], views[|views| - 1];
      RunEnters(env, lib, conf, init, a) || ViewEnters(env, lib, conf, v, RunViews(env, lib, conf, init, a).post)
  }

  lemma ViewLosesNothing(env: Env, lib: Library, conf: RunConf, v: SuiteView, a: Api)
    ensures NothingLost(env, NamespaceOf(env, conf.ensureNamespace, ViewEnters(env, lib, conf, v, a)), a,
              RunView(env, lib, conf, v, a).post)
  {
    hide NothingLost;
    hide RunSuite;
    hide SuiteEnters;
    hide SuiteDirOf;
    hide NamespaceId;
    TemplatesDoNotMatter(env, lib, v);
    SuiteLosesNothing(SuiteEnv(env, lib, v), SuiteConf(conf, v), SuiteDirOf(lib, v), a);
    SameExcuses(env, lib, v, NamespaceOf(env, conf.ensureNamespace, ViewEnters(env, lib, conf, v, a)), a,
      RunView(env, lib, conf, v, a).post);
  }

  lemma ViewLeavesNothing(env: Env, lib: Library, conf: RunConf, v: SuiteView, a: Api)
    requires LiveRun(env) && ViewUnambiguous(env, lib, conf, v)
    requires conf.ensureNamespace ==>
      NamespaceId(env) !in Dropped(RunView(env, lib, conf, v, a).post.audit, |a.audit|)
    ensures NothingLeft(env, NamespaceOf(env, conf.ensureNamespace, ViewEnters(env, lib, conf, v, a)), a,
              RunView(env, lib, conf, v, a).post)
  {
    hide NothingLost;
    hide NothingLeft;
    hide LiveRun;
    hide SuiteUnambiguous;
    hide Dropped;
    hide RunSuite;
    hide SuiteEnters;
    hide SuiteDirOf;
    hide NamespaceId;
    TemplatesDoNotMatter(env, lib, v);
    SuiteConserves(SuiteEnv(env, lib, v), SuiteConf(conf, v), SuiteDirOf(lib, v), a);
    SameExcuses(env, lib, v, NamespaceOf(env, conf.ensureNamespace, ViewEnters(env, lib, conf, v, a)), a,
      RunView(env, lib, conf, v, a).post);
  }

  /** The run namespace, if any suite runs a case. */
  function RunNamespace(env: Env, lib: Library, conf: RunConf, views: seq<SuiteView>, a: Api): set<Id> {
    NamespaceOf(env, conf.ensureNamespace, RunEnters(env, lib, conf, views, a))
  }

  /** No run loses what stood before it, with nothing assumed. */
  lemma {:induction false} RunLosesNothing(env: Env, lib: Library, conf: RunConf, views: seq<SuiteView>, a: Api)
    ensures NothingLost(env, RunNamespace(env, lib, conf, views, a), a, RunViews(env, lib, conf, views, a).post)
    decreases |views|
  {
    hide NothingLost;
    hide RunView;
    hide ViewEnters;
    hide NamespaceOf;
    if views == [] {
      NothingLostYet(env, conf.ensureNamespace, a);
    } else {
      var init, v := views[..|views| - 1], views[|views| - 1];
      var mid := RunViews(env, lib, conf, init, a).post;
      RunLosesNothing(env, lib, conf, init, a);
      ViewLosesNothing(env, lib, conf, v, mid);
      var one, other := RunEnters(env, lib, conf, init, a), ViewEnters(env, lib, conf, v, mid);
      LostTrans(env, NamespaceOf(env, conf.ensureNamespace, one), NamespaceOf(env, conf.ensureNamespace, other),
        a, mid, RunView(env, lib, conf, v, mid).post);
      NamespaceEither(env, conf.ensureNamespace, one, other);
    }
  }

  lemma LostGrowsLog(env: Env, extra: set<Id>, a: Api, b: Api)
    requires NothingLost(env, extra, a, b)
    ensures a.audit <= b.audit
  {
  }

  lemma {:induction false} RunLeavesNothing(env: Env, lib: Library, conf: RunConf, views: seq<SuiteView>, a: Api)
    requires LiveRun(env) && RunUnambiguous(env, lib, conf, views)
    requires conf.ensureNamespace ==>
      NamespaceId(env) !in Dropped(RunViews(env, lib, conf, views, a).post.audit, |a.audit|)
    ensures NothingLeft(env, RunNamespace(env, lib, conf, views, a), a, RunViews(env, lib, conf, views, a).post)
    decreases |views|
  {
    hide NothingLost;
    hide NothingLeft;
    hide LiveRun;
    hide RunView;
    hide ViewEnters;
    hide ViewUnambiguous;
    hide Dropped;
    hide NamespaceId;
    if views == [] {
      NothingLostYet(env, conf.ensureNamespace, a);
    } else {
      var init, v := views[..|views| - 1], views[|views| - 1];
      var mid := RunViews(env, lib, conf, init, a).post;
      var end := RunView(env, lib, conf, v, mid).post;
      RunLosesNothing(env, lib, conf, init, a);
      ViewLosesNothing(env, lib, conf, v, mid);
      LostGrowsLog(env, RunNamespace(env, lib, conf, init, a), a, mid);
      var one, other := RunEnters(env, lib, conf, init, a), ViewEnters(env, lib, conf, v, mid);
      LostGrowsLog(env, NamespaceOf(env, conf.ensureNamespace, other), mid, end);
      DroppedSplits(mid.audit, end.audit, |a.audit|);
      RunLeavesNothing(env, lib, conf, init, a);
      ViewLeavesNothing(env, lib, conf, v, mid);
      LeftTrans(env, NamespaceOf(env, conf.ensureNamespace, one), NamespaceOf(env, conf.ensureNamespace, other),
        a, mid, end);
      NamespaceEither(env, conf.ensureNamespace, one, other);
    }
  }

  /** Whole-run conservation: for every list of suites and every failure pattern, what
      stood is there unless it was released, and what is there is the cluster before plus
      the run namespace minus what delete actions removed, up to excused objects. */
  lemma {:induction false} RunConserves(env: Env, lib: Library, conf: RunConf, views: seq<SuiteView>, a: Api)
    requires LiveRun(env) && RunUnambiguous(env, lib, conf, views)
    requires conf.ensureNamespace ==>
      NamespaceId(env) !in Dropped(RunViews(env, lib, conf, views, a).post.audit, |a.audit|)
    ensures Conserves(env, RunNamespace(env, lib, conf, views, a), a, RunViews(env, lib, conf, views, a).post)
  {
    hide *;
    RunLosesNothing(env, lib, conf, views, a);
    RunLeavesNothing(env, lib, conf, views, a);
    ConservesBoth(env, RunNamespace(env, lib, conf, views, a), a, RunViews(env, lib, conf, views, a).post);
  }

  /** If rejected calls have no effect and no delete failed, it is exact. */
  lemma {:induction false} RunConservesExactly(env: Env, lib: Library, conf: RunConf, views: seq<SuiteView>, a: Api)
    requires LiveRun(env) && FailuresHaveNoEffect(env) && RunUnambiguous(env, lib, conf, views)
    requires var b := RunViews(env, lib, conf, views, a).post;
             && NoDeleteFailed(b.audit, |a.audit|)
             && (conf.ensureNamespace ==> NamespaceId(env) !in Dropped(b.audit, |a.audit|))
    ensures var b := RunViews(env, lib, conf, views, a).post;
            b.objects.Keys == a.objects.Keys + RunNamespace(env, lib, conf, views, a) - Dropped(b.audit, |a.audit|)
  {
    hide *;
    RunConserves(env, lib, conf, views, a);
    ConservesExactly(env, RunNamespace(env, lib, conf, views, a), a, RunViews(env, lib, conf, views, a).post);
  }
}
