/** Service.LogsContains: the any, all and none policies over the samples of one
polling window. */
module LogPolicies {

  import opened Errors
  import opened Objects
  import opened Waiting

  datatype Policy = MatchAny | MatchAll | MatchNone

  /** One tick: the pods could not be resolved, or each resolved pod's logs (None
      when unreadable). */
  datatype Sample = Unresolved | Resolved(logs: seq<Option<string>>)

  /** The samples a poll takes as long as its condition stays false, then the
      caller's ctx.Err() and the poll's own error when the window ends. */
  datatype Window = Window(samples: seq<Sample>, caller: Err, poll: Failure)

  predicate OccursAt(text: string, part: string, i: nat) {
    i + |part| <= |text| && text[i..i + |part|] == part
  }

  predicate Contains(text: string, part: string) {
    exists i: nat | i <= |text| :: OccursAt(text, part, i)
  }

  predicate Matches(log: Option<string>, part: string) {
    log.Some? && Contains(log.value, part)
  }

  function CountMatches(logs: seq<Option<string>>, part: string): (n: nat)
    ensures n <= |logs|
    ensures n > 0 <==> exists i :: 0 <= i < |logs| && Matches(logs[i], part)
    ensures n == |logs| <==> forall i :: 0 <= i < |logs| ==> Matches(logs[i], part)
  {
    if logs == [] then 0
    else
      var last := logs[|logs| - 1];
      var init := logs[..|logs| - 1];
      assert forall i :: 0 <= i < |logs| ==> logs[i] == if i < |init| then init[i] else last;
      CountMatches(init, part) + if Matches(last, part) then 1 else 0
  }

  /** countLogMatches: how many of how many resolved pods contain the string. */
  function Counts(s: Sample, part: string): (nat, nat) {
    match s
    case Unresolved => (0, 0)
    case Resolved(logs) => (CountMatches(logs, part), |logs|)
  }

  /** The condition a tick evaluates, per policy. */
  predicate Holds(policy: Policy, s: Sample, part: string) {
    var (matched, resolved) := Counts(s, part);
    match policy
    case MatchAny => resolved != 0 && matched > 0
    case MatchAll => resolved != 0 && matched == resolved
    case MatchNone => matched > 0
  }

  /** The first tick at which the condition holds, or the number of samples. */
  function FirstHit(policy: Policy, samples: seq<Sample>, part: string): (n: nat)
    ensures n <= |samples|
    ensures n < |samples| ==> Holds(policy, samples[n], part)
    ensures forall i :: 0 <= i < n ==> !Holds(policy, samples[i], part)
  {
    if samples == [] then 0
    else if Holds(policy, samples[0], part) then 0
    else
      var m := FirstHit(policy, samples[1..], part);
      assert forall i :: 0 < i <= m ==> samples[i..] == samples[1..][i - 1..];
      m + 1
  }

  function LogsContains(policy: Policy, w: Window, part: string): Err {
    var hit := FirstHit(policy, w.samples, part) < |w.samples|;
    if policy.MatchNone? then
      if hit then {LogsForbidden}
      else if w.caller != {} then w.caller
      else if DeadlineExceeded in w.poll then {}
      else w.poll
    else if hit then {} else {LogsNotContain}
  }

  /** At every tick the none policy is violated exactly where any is satisfied, so
      the two stop at the same tick; over a window that runs out under a live
      caller they give opposite verdicts. */
  lemma {:induction false} NoneFailsWhereAnyHolds(w: Window, part: string)
    ensures FirstHit(MatchNone, w.samples, part) == FirstHit(MatchAny, w.samples, part)
    ensures w.caller == {} && DeadlineExceeded in w.poll ==>
      (LogsContains(MatchAny, w, part) == {} <==> LogsContains(MatchNone, w, part) != {})
    decreases |w.samples|
  {
    if w.samples != [] {
      NoneFailsWhereAnyHolds(w.(samples := w.samples[1..]), part);
    }
  }

  /** Every pod matching implies some pod matching: all never succeeds before any. */
  lemma {:induction false} AllImpliesAnyNoLater(w: Window, part: string)
    ensures FirstHit(MatchAny, w.samples, part) <= FirstHit(MatchAll, w.samples, part)
    ensures LogsContains(MatchAll, w, part) == {} ==> LogsContains(MatchAny, w, part) == {}
    decreases |w.samples|
  {
    if w.samples != [] {
      AllImpliesAnyNoLater(w.(samples := w.samples[1..]), part);
    }
  }

  /** An unreadable pod counts as resolved but never as matched, so no tick with
      one satisfies all, whatever the other pods say. */
  lemma UnreadablePodBlocksAll(logs: seq<Option<string>>, pod: nat, part: string)
    requires pod < |logs| && logs[pod].None?
    ensures !Holds(MatchAll, Resolved(logs), part)
  {
    assert !Matches(logs[pod], part);
  }

  /** Absence is reported exactly when no pod in any sample of the window contained
      the string, the caller was still alive and the window ran out. */
  lemma NonePassesIff(w: Window, part: string)
    ensures LogsContains(MatchNone, w, part) == {} <==>
      && w.caller == {} && DeadlineExceeded in w.poll
      && forall t, p :: 0 <= t < |w.samples| && w.samples[t].Resolved? && 0 <= p < |w.samples[t].logs|
           ==> !Matches(w.samples[t].logs[p], part)
  {
    var n := FirstHit(MatchNone, w.samples, part);
    if n < |w.samples| {
      assert Holds(MatchNone, w.samples[n], part);
      var p :| 0 <= p < |w.samples[n].logs| && Matches(w.samples[n].logs[p], part);
    } else {
      assert forall t :: 0 <= t < |w.samples| ==> !Holds(MatchNone, w.samples[t], part);
    }
  }

  /** A cancelled caller is not seen by the any and all policies: they report the
      missing string, which is not an error of the class that stops a suite. */
  lemma PresenceMasksCancellation(policy: Policy, w: Window, part: string)
    requires !policy.MatchNone? && LogsContains(policy, w, part) != {}
    ensures !Interrupts(LogsContains(policy, w, part))
  {
  }

  method CountLogMatches(s: Sample, part: string) returns (matched: nat, resolved: nat)
    ensures (matched, resolved) == Counts(s, part)
  {
    if s.Unresolved? {
      return 0, 0;
    }
    matched := 0;
    for n := 0 to |s.logs|
      invariant matched == CountMatches(s.logs[..n], part)
    {
      assert s.logs[..n + 1][..n] == s.logs[..n];
      if Matches(s.logs[n], part) {
        matched := matched + 1;
      }
    }
    assert s.logs[..|s.logs|] == s.logs;
    resolved := |s.logs|;
  }

  /** logsPresent and logsAbsent: poll until the condition holds or the window ends. */
  method PollLogs(policy: Policy, w: Window, part: string) returns (err: Err)
    ensures err == LogsContains(policy, w, part)
  {
    var t := 0;
    while t < |w.samples|
      invariant t <= |w.samples|
      invariant FirstHit(policy, w.samples, part) == t + FirstHit(policy, w.samples[t..], part)
    {
      assert w.samples[t..][1..] == w.samples[t + 1..];
      var matched, resolved := CountLogMatches(w.samples[t], part);
      if policy.MatchNone? {
        if matched > 0 {
          return {LogsForbidden};
        }
      } else if resolved != 0 && (if policy.MatchAll? then matched == resolved else matched > 0) {
        return {};
      }
      t := t + 1;
    }
    if !policy.MatchNone? {
      return {LogsNotContain};
    }
    if w.caller != {} {
      return w.caller;
    }
    if DeadlineExceeded in w.poll {
      return {};
    }
    return w.poll;
  }
}
