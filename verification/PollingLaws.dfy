/** What a wait, a deletion wait and a log check answer, said of the events and the log
lines themselves. */
module PollingLaws {

  import opened Errors
  import opened Objects
  import opened Lifecycle
  import opened Effects
  import Waiting
  import LogPolicies

  // ---- waits ----

  /** The event is about the object, and says it is gone while that is awaited, or shows
      it meeting every condition. */
  predicate Meets(judge: Waiting.Judge, ref: Ref, conditions: seq<string>, gone: bool, ev: Waiting.Event) {
    && ev.ResourceEvent? && ev.ref == ref
    && ((gone && ev.notFound)
        || (ev.manifest.Some? && forall i :: 0 <= i < |conditions| ==> judge(conditions[i], ev.manifest.value).Pass?))
  }

  /** Condition i cannot be evaluated on the object, and those before it pass. */
  predicate BreaksAt(judge: Waiting.Judge, conditions: seq<string>, m: Obj, i: nat) {
    && i < |conditions| && judge(conditions[i], m).Broken?
    && forall j :: 0 <= j < i ==> judge(conditions[j], m).Pass?
  }

  /** The error the event ends the wait with, if it does. */
  ghost predicate FailsWith(
    judge: Waiting.Judge, ref: Ref, conditions: seq<string>, gone: bool, ev: Waiting.Event, e: Err)
  {
    || (ev.ErrorEvent? && e == ev.error)
    || (&& ev.ResourceEvent? && ev.ref == ref && !(gone && ev.notFound) && ev.manifest.Some?
        && exists i: nat :: BreaksAt(judge, conditions, ev.manifest.value, i)
             && e == judge(conditions[i], ev.manifest.value).error)
  }

  ghost predicate Passes(judge: Waiting.Judge, ref: Ref, conditions: seq<string>, gone: bool, ev: Waiting.Event) {
    !Meets(judge, ref, conditions, gone, ev) && forall e :: !FailsWith(judge, ref, conditions, gone, ev, e)
  }

  lemma {:induction false} JudgeAllBreaks(judge: Waiting.Judge, conditions: seq<string>, m: Obj)
    ensures var v := Waiting.JudgeAll(judge, conditions, m);
            && (v.Broken? ==>
                  exists i: nat :: BreaksAt(judge, conditions, m, i) && v.error == judge(conditions[i], m).error)
            && (forall i: nat :: BreaksAt(judge, conditions, m, i) ==> v == judge(conditions[i], m))
  {
    if conditions != [] {
      var rest := conditions[1..];
      JudgeAllBreaks(judge, rest, m);
      var v := Waiting.JudgeAll(judge, conditions, m);
      forall i: nat | BreaksAt(judge, conditions, m, i) ensures v == judge(conditions[i], m) {
        if i > 0 {
          assert forall j :: 0 <= j < i - 1 ==> rest[j] == conditions[j + 1];
          assert BreaksAt(judge, rest, m, i - 1);
        }
      }
      if v.Broken? {
        if judge(conditions[0], m).Pass? {
          var i: nat :| BreaksAt(judge, rest, m, i) && v.error == judge(rest[i], m).error;
          assert forall j :: 0 < j <= i ==> rest[j - 1] == conditions[j];
          assert BreaksAt(judge, conditions, m, i + 1);
        } else {
          assert BreaksAt(judge, conditions, m, 0);
        }
      }
    }
  }

  lemma DecidesIs(judge: Waiting.Judge, ref: Ref, conditions: seq<string>, gone: bool, ev: Waiting.Event)
    ensures var q := Waiting.Query(ref, conditions, gone);
            && (Waiting.Satisfies(judge, q, ev) <==> Meets(judge, ref, conditions, gone, ev))
            && (Waiting.Decides(judge, q, ev) <==> !Passes(judge, ref, conditions, gone, ev))
            && (Waiting.Decides(judge, q, ev) && !Meets(judge, ref, conditions, gone, ev)
                ==> FailsWith(judge, ref, conditions, gone, ev, Waiting.Answer(judge, q, ev)))
  {
    hide Waiting.JudgeAll;
    if ev.ResourceEvent? && ev.manifest.Some? {
      JudgeAllBreaks(judge, conditions, ev.manifest.value);
    }
    if ev.ErrorEvent? {
      assert FailsWith(judge, ref, conditions, gone, ev, ev.error);
    }
    var q := Waiting.Query(ref, conditions, gone);
    if Waiting.Fails(judge, q, ev) && !ev.ErrorEvent? {
      assert FailsWith(judge, ref, conditions, gone, ev, Waiting.JudgeAll(judge, conditions, ev.manifest.value).error);
    }
  }

  /** The first event that does not pass is this one. */
  ghost predicate FirstWord(
    judge: Waiting.Judge, ref: Ref, conditions: seq<string>, gone: bool, events: seq<Waiting.Event>, n: nat)
  {
    && n < |events| && !Passes(judge, ref, conditions, gone, events[n])
    && forall i :: 0 <= i < n ==> Passes(judge, ref, conditions, gone, events[i])
  }

  /** What a wait answers: nil when the first event that has a say meets the wish, that
      event's error when it does not, and the closing error when no event has a say. */
  ghost predicate WaitAnswer(
    judge: Waiting.Judge, ref: Ref, conditions: seq<string>, gone: bool, feed: Waiting.Feed, e: Err)
  {
    && (forall n: nat :: FirstWord(judge, ref, conditions, gone, feed.events, n) ==>
          if Meets(judge, ref, conditions, gone, feed.events[n]) then e == {}
          else e != {} && FailsWith(judge, ref, conditions, gone, feed.events[n], e))
    && ((forall i :: 0 <= i < |feed.events| ==> Passes(judge, ref, conditions, gone, feed.events[i]))
        ==> e == feed.closing)
  }

  lemma WaitAnswers(judge: Waiting.Judge, ref: Ref, conditions: seq<string>, gone: bool, feed: Waiting.Feed)
    ensures WaitAnswer(judge, ref, conditions, gone, feed,
              Waiting.Wait(judge, Waiting.Query(ref, conditions, gone), feed))
  {
    hide Waiting.Wait;
    hide Waiting.Decides;
    hide Waiting.Satisfies;
    hide Waiting.Answer;
    hide Passes;
    hide FailsWith;
    hide Meets;
    var q := Waiting.Query(ref, conditions, gone);
    forall i | 0 <= i < |feed.events|
      ensures Waiting.Decides(judge, q, feed.events[i]) <==> !Passes(judge, ref, conditions, gone, feed.events[i])
    {
      DecidesIs(judge, ref, conditions, gone, feed.events[i]);
    }
    forall n: nat | FirstWord(judge, ref, conditions, gone, feed.events, n)
      ensures var e := Waiting.Wait(judge, q, feed);
              if Meets(judge, ref, conditions, gone, feed.events[n]) then e == {}
              else e != {} && FailsWith(judge, ref, conditions, gone, feed.events[n], e)
    {
      assert Waiting.StopsAt(judge, q, feed, n);
      Waiting.WaitAtStop(judge, q, feed, n);
      DecidesIs(judge, ref, conditions, gone, feed.events[n]);
    }
    var m := Waiting.WaitStopsOrCloses(judge, q, feed);
    if m < |feed.events| {
      assert Waiting.StopsAt(judge, q, feed, m);
    }
  }

  /** How the server knows the object in its events. */
  function EventRef(env: Env, o: Obj): Ref {
    Ref(o.group, o.kind, HomeOf(env, o), o.name)
  }

  /** A wait on a live run: the error of kind resolution, or the answer of the feed. */
  lemma WaitForMeans(env: Env, w: World, o: Obj, conditions: seq<string>, gone: bool)
    requires !env.dryRun
    ensures var (w', e) := WaitFor(env, w, o, conditions, gone);
            && w' == w.(api := w.api.(clock := w'.api.clock))
            && (Resolve(env, w, o).2 != {} ==> e == Resolve(env, w, o).2)
            && (Resolve(env, w, o).2 == {} ==>
                  WaitAnswer(env.judge, EventRef(env, o), conditions, gone, env.feed(w.api.clock + 1), e))
  {
    hide Waiting.Wait;
    hide WaitAnswer;
    ResolveMeans(env, w, o);
    WaitAnswers(env.judge, EventRef(env, o), conditions, gone, env.feed(w.api.clock + 1));
  }

  /** Delete waits for the disappearance exactly when it is asked to and the delete itself
      succeeded, and then returns what that wait answers. */
  lemma DeleteWaits(env: Env, w: World, o: Obj, wait: bool, attempts: int, origin: Origin)
    requires !env.dryRun
    ensures var (w1, e1) := DeleteCall(env, w, o, attempts, origin);
            var (w', e) := Delete(env, w, o, wait, attempts, origin);
            && w'.api.objects == w1.api.objects && w'.api.audit == w1.api.audit && w'.applied == w1.applied
            && (e1 != {} ==> e == e1)
            && (e1 == {} && !wait ==> e == {} && w' == w1)
            && (e1 == {} && wait ==>
                  if Resolve(env, w1, o).2 != {} then e == Resolve(env, w1, o).2
                  else WaitAnswer(env.judge, EventRef(env, o), [], true, env.feed(w1.api.clock + 1), e))
  {
    hide DeleteCall;
    hide WaitFor;
    hide Resolve;
    hide WaitAnswer;
    var w1 := DeleteCall(env, w, o, attempts, origin).0;
    WaitForMeans(env, w1, o, [], true);
  }

  // ---- logs ----

  /** The pod's log could be read and contains the text. */
  ghost predicate Shows(log: Option<string>, part: string) {
    log.Some? && exists before, after :: log.value == before + part + after
  }

  /** Some pod in some sample shows the text. */
  ghost predicate ShownAtAll(samples: seq<LogPolicies.Sample>, part: string) {
    exists t, p :: 0 <= t < |samples| && samples[t].Resolved? && 0 <= p < |samples[t].logs|
      && Shows(samples[t].logs[p], part)
  }

  /** In some sample there are pods and every one of them shows the text. */
  ghost predicate ShownByAll(samples: seq<LogPolicies.Sample>, part: string) {
    exists t :: 0 <= t < |samples| && samples[t].Resolved? && samples[t].logs != []
      && forall p :: 0 <= p < |samples[t].logs| ==> Shows(samples[t].logs[p], part)
  }

  lemma ShowsIsMatches(log: Option<string>, part: string)
    ensures Shows(log, part) <==> LogPolicies.Matches(log, part)
  {
    if Shows(log, part) {
      var before, after :| log.value == before + part + after;
      assert log.value[|before|..|before| + |part|] == part;
      assert LogPolicies.OccursAt(log.value, part, |before|);
    }
    if LogPolicies.Matches(log, part) {
      var i: nat :| i <= |log.value| && LogPolicies.OccursAt(log.value, part, i);
      assert log.value == log.value[..i] + part + log.value[i + |part|..];
    }
  }

  lemma HoldsIs(s: LogPolicies.Sample, part: string)
    ensures LogPolicies.Holds(LogPolicies.MatchAny, s, part) <==> ShownAtAll([s], part)
    ensures LogPolicies.Holds(LogPolicies.MatchNone, s, part) <==> ShownAtAll([s], part)
    ensures LogPolicies.Holds(LogPolicies.MatchAll, s, part) <==> ShownByAll([s], part)
  {
    hide Shows;
    hide LogPolicies.Matches;
    assert [s][0] == s;
    if s.Resolved? {
      forall p | 0 <= p < |s.logs| ensures Shows(s.logs[p], part) <==> LogPolicies.Matches(s.logs[p], part) {
        ShowsIsMatches(s.logs[p], part);
      }
      if exists p :: 0 <= p < |s.logs| && LogPolicies.Matches(s.logs[p], part) {
        var p :| 0 <= p < |s.logs| && LogPolicies.Matches(s.logs[p], part);
        assert Shows([s][0].logs[p], part);
      }
    }
  }

  /** The error of a log check over one polling window, per policy. */
  ghost function LogAnswer(policy: LogPolicies.Policy, w: LogPolicies.Window, part: string): Err {
    match policy
    case MatchAny => if ShownAtAll(w.samples, part) then {} else {LogsNotContain}
    case MatchAll => if ShownByAll(w.samples, part) then {} else {LogsNotContain}
    case MatchNone =>
      if ShownAtAll(w.samples, part) then {LogsForbidden}
      else if w.caller != {} then w.caller
      else if DeadlineExceeded in w.poll then {}
      else w.poll
  }

  lemma HitIsSomewhere(policy: LogPolicies.Policy, samples: seq<LogPolicies.Sample>, part: string)
    ensures LogPolicies.FirstHit(policy, samples, part) < |samples|
       <==> exists t :: 0 <= t < |samples| && LogPolicies.Holds(policy, samples[t], part)
  {
    hide LogPolicies.Holds;
  }

  lemma ShownSomewhere(samples: seq<LogPolicies.Sample>, part: string)
    ensures ShownAtAll(samples, part) <==> exists t :: 0 <= t < |samples| && ShownAtAll([samples[t]], part)
    ensures ShownByAll(samples, part) <==> exists t :: 0 <= t < |samples| && ShownByAll([samples[t]], part)
  {
    hide Shows;
    if ShownAtAll(samples, part) {
      var t, p :| 0 <= t < |samples| && samples[t].Resolved? && 0 <= p < |samples[t].logs|
        && Shows(samples[t].logs[p], part);
      assert [samples[t]][0] == samples[t] && Shows([samples[t]][0].logs[p], part);
    }
    if ShownByAll(samples, part) {
      var t :| 0 <= t < |samples| && samples[t].Resolved? && samples[t].logs != []
        && forall p :: 0 <= p < |samples[t].logs| ==> Shows(samples[t].logs[p], part);
      assert [samples[t]][0] == samples[t];
    }
  }

  lemma LogsAnswer(policy: LogPolicies.Policy, w: LogPolicies.Window, part: string)
    ensures LogPolicies.LogsContains(policy, w, part) == LogAnswer(policy, w, part)
  {
    hide LogPolicies.Holds;
    hide LogPolicies.FirstHit;
    hide ShownAtAll;
    hide ShownByAll;
    HitIsSomewhere(policy, w.samples, part);
    ShownSomewhere(w.samples, part);
    forall t | 0 <= t < |w.samples|
      ensures LogPolicies.Holds(policy, w.samples[t], part)
         <==> if policy.MatchAll? then ShownByAll([w.samples[t]], part) else ShownAtAll([w.samples[t]], part)
    {
      HoldsIs(w.samples[t], part);
    }
  }

  /** A log check on a live run asks one polling window and changes nothing. */
  lemma LogsCheckMeans(env: Env, w: World, policy: LogPolicies.Policy, part: string)
    requires !env.dryRun
    ensures var (w', e) := LogsCheck(env, w, policy, part);
            && w' == w.(api := w.api.(clock := w.api.clock + 1))
            && e == LogAnswer(policy, env.window(w.api.clock), part)
  {
    hide LogPolicies.LogsContains;
    LogsAnswer(policy, env.window(w.api.clock), part);
  }
}
