/** How often a failing operation is tried: the user's attempts are used up, and the
retries on one kind of error happen on that kind only. */
module RetryLaws {

  import opened Errors
  import opened Objects
  import opened Lifecycle

  /** The results a stretch of calls added. */
  function New(t: Thread, t': Thread): seq<Err> {
    if |t.results| <= |t'.results| then t'.results[|t.results|..] else []
  }

  predicate AllCarry(rs: seq<Err>, k: Kind) {
    forall i :: 0 <= i < |rs| ==> k in rs[i]
  }

  predicate NoneCarries(rs: seq<Err>, k: Kind) {
    forall i :: 0 <= i < |rs| ==> k !in rs[i]
  }

  lemma NewSplits(t: Thread, t1: Thread, t2: Thread, e1: Err, e2: Err, most: nat, more: nat)
    requires Answered(t, t1, e1, most) && Answered(t1, t2, e2, more)
    ensures New(t, t2) == New(t, t1) + New(t1, t2)
    ensures New(t, t1) != [] && New(t, t1)[|New(t, t1)| - 1] == e1
  {
    assert t2.results[..|t1.results|] == t1.results;
  }

  lemma NewEnds(t: Thread, t': Thread, e: Err, most: nat)
    requires Answered(t, t', e, most)
    ensures New(t, t') != [] && New(t, t')[|New(t, t')| - 1] == e && |New(t, t')| <= most
    ensures |t'.results| == |t.results| + |New(t, t')|
  {
  }

  /** The policy retries each of these results. */
  predicate Wants(r: Retriable, rs: seq<Err>) {
    r.Always? || AllCarry(rs, r.kind)
  }

  /** A retry that still fails has made all its calls, if it wants every result. */
  lemma {:induction false} Exhausts(
    env: Env, steps: nat, retriable: Retriable, inner: seq<Policy>, op: Op, t: Thread)
    requires Positive(inner) && steps >= 1
    ensures var (t', e) := Loop(env, steps, retriable, inner, op, t);
            e != {} && Wants(retriable, New(t, t')) ==> |New(t, t')| >= steps
    decreases steps
  {
    hide Attempt;
    RetryContract(env, inner, op, t);
    LoopContract(env, steps, retriable, inner, op, t);
    var (t1, e1) := Retry(env, inner, op, t);
    var (t', e) := Loop(env, steps, retriable, inner, op, t);
    NewEnds(t, t1, e1, Budget(inner));
    NewEnds(t, t', e, steps * Budget(inner));
    if e1 != {} && Retries(retriable, e1) && steps > 1 {
      LoopContract(env, steps - 1, retriable, inner, op, t1);
      NewSplits(t, t1, t', e1, e, Budget(inner), (steps - 1) * Budget(inner));
      Exhausts(env, steps - 1, retriable, inner, op, t1);
      if Wants(retriable, New(t, t')) {
        TailWanted(retriable, New(t, t1), New(t1, t'));
      }
    }
  }

  lemma TailWanted(r: Retriable, a: seq<Err>, b: seq<Err>)
    requires Wants(r, a + b)
    ensures Wants(r, a) && Wants(r, b)
  {
    if r.OnKind? {
      assert forall i :: 0 <= i < |b| ==> b[i] == (a + b)[|a| + i];
      assert forall i :: 0 <= i < |a| ==> a[i] == (a + b)[i];
    }
  }

  lemma TailNoneCarries(a: seq<Err>, b: seq<Err>, k: Kind)
    requires NoneCarries(a + b, k)
    ensures NoneCarries(a, k) && NoneCarries(b, k)
  {
    assert forall i :: 0 <= i < |b| ==> b[i] == (a + b)[|a| + i];
    assert forall i :: 0 <= i < |a| ==> a[i] == (a + b)[i];
  }

  lemma StartsWith(a: seq<Err>, b: seq<Err>)
    requires a != []
    ensures a <= a + b && (a + b)[|a| - 1] == a[|a| - 1]
  {
  }

  /** The results of a retry begin with those of its first round. */
  lemma LoopStarts(env: Env, steps: nat, retriable: Retriable, inner: seq<Policy>, op: Op, t: Thread)
    requires Positive(inner) && steps >= 1
    ensures var (t1, e1) := Retry(env, inner, op, t);
            var rs := New(t, Loop(env, steps, retriable, inner, op, t).0);
            New(t, t1) <= rs && New(t, t1) != [] && rs[|New(t, t1)| - 1] == e1
  {
    hide Attempt;
    hide New;
    hide Budget;
    hide Answered;
    RetryContract(env, inner, op, t);
    var (t1, e1) := Retry(env, inner, op, t);
    var (t', e) := Loop(env, steps, retriable, inner, op, t);
    NewEnds(t, t1, e1, Budget(inner));
    if e1 != {} && Retries(retriable, e1) && steps > 1 {
      LoopContract(env, steps - 1, retriable, inner, op, t1);
      NewSplits(t, t1, t', e1, e, Budget(inner), (steps - 1) * Budget(inner));
      StartsWith(New(t, t1), New(t1, t'));
    }
  }

  /** A retry on one kind does nothing about other errors. */
  lemma KindIgnored(env: Env, steps: nat, k: Kind, inner: seq<Policy>, op: Op, t: Thread)
    requires Positive(inner) && steps >= 1
    requires NoneCarries(New(t, Loop(env, steps, OnKind(k), inner, op, t).0), k)
    ensures Loop(env, steps, OnKind(k), inner, op, t) == Retry(env, inner, op, t)
  {
    hide Attempt;
    LoopStarts(env, steps, OnKind(k), inner, op, t);
    assert k !in Retry(env, inner, op, t).1;
  }

  /** So an inner retry on a kind that no result carries can be left out. */
  lemma {:induction false} InnerIgnored(
    env: Env, n: nat, retriable: Retriable, steps: nat, k: Kind, op: Op, t: Thread)
    requires n >= 1 && steps >= 1
    requires NoneCarries(New(t, Loop(env, n, retriable, [Policy(steps, OnKind(k))], op, t).0), k)
    ensures Loop(env, n, retriable, [Policy(steps, OnKind(k))], op, t) == Loop(env, n, retriable, [], op, t)
    decreases n
  {
    hide Attempt;
    var inner := [Policy(steps, OnKind(k))];
    assert inner[1..] == [];
    RetryContract(env, inner, op, t);
    LoopContract(env, n, retriable, inner, op, t);
    var (t1, e1) := Retry(env, inner, op, t);
    var (t', e) := Loop(env, n, retriable, inner, op, t);
    if e1 != {} && Retries(retriable, e1) && n > 1 {
      LoopContract(env, n - 1, retriable, inner, op, t1);
      NewSplits(t, t1, t', e1, e, Budget(inner), (n - 1) * Budget(inner));
      TailNoneCarries(New(t, t1), New(t1, t'), k);
      InnerIgnored(env, n - 1, retriable, steps, k, op, t1);
    }
    KindIgnored(env, steps, k, [], op, t);
  }

  /** A single retry around the call itself makes exactly its calls, if it wants each. */
  lemma ExactlySteps(env: Env, steps: nat, retriable: Retriable, op: Op, t: Thread)
    requires steps >= 1
    ensures var (t', e) := Loop(env, steps, retriable, [], op, t);
            e != {} && Wants(retriable, New(t, t')) ==> |New(t, t')| == steps
  {
    hide Attempt;
    hide Loop;
    Exhausts(env, steps, retriable, [], op, t);
    LoopContract(env, steps, retriable, [], op, t);
    var (t', e) := Loop(env, steps, retriable, [], op, t);
    assert Budget([]) == 1;
    NewEnds(t, t', e, steps * 1);
  }

  // ---- one round of a write ----

  function TransientPolicies(): (ps: seq<Policy>)
    ensures Positive(ps)
  {
    [Policy(DefaultSteps, OnKind(ServerTimeout)), Policy(DefaultSteps, OnKind(ServiceUnavailable))]
  }

  /** Every result is of the one transient kind and not of the other. */
  predicate Steady(rs: seq<Err>) {
    || (AllCarry(rs, ServerTimeout) && NoneCarries(rs, ServiceUnavailable))
    || (AllCarry(rs, ServiceUnavailable) && NoneCarries(rs, ServerTimeout))
  }

  /** No result is of a transient kind. */
  predicate Foreign(rs: seq<Err>) {
    NoneCarries(rs, ServerTimeout) && NoneCarries(rs, ServiceUnavailable)
  }

  /** A round that keeps failing with one transient kind makes four calls. */
  lemma SteadyRound(env: Env, op: Op, t: Thread)
    ensures var (t', e) := Retry(env, TransientPolicies(), op, t);
            e != {} && Steady(New(t, t')) ==> |New(t, t')| == 4
  {
    hide Attempt;
    var ps := TransientPolicies();
    var last := [Policy(DefaultSteps, OnKind(ServiceUnavailable))];
    assert ps[1..] == last && last[1..] == [];
    var (t', e) := Retry(env, ps, op, t);
    if e != {} && Steady(New(t, t')) {
      if AllCarry(New(t, t'), ServerTimeout) && NoneCarries(New(t, t'), ServiceUnavailable) {
        InnerIgnored(env, DefaultSteps, OnKind(ServerTimeout), DefaultSteps, ServiceUnavailable, op, t);
        ExactlySteps(env, DefaultSteps, OnKind(ServerTimeout), op, t);
      } else {
        KindIgnored(env, DefaultSteps, ServerTimeout, last, op, t);
        ExactlySteps(env, DefaultSteps, OnKind(ServiceUnavailable), op, t);
      }
    }
  }

  /** A round whose first call fails otherwise, or succeeds, makes one call. */
  lemma ForeignRound(env: Env, op: Op, t: Thread)
    requires ServerTimeout !in Attempt(env, op, t).1 && ServiceUnavailable !in Attempt(env, op, t).1
    ensures Retry(env, TransientPolicies(), op, t) == Attempt(env, op, t)
  {
    hide Attempt;
    var ps := TransientPolicies();
    var last := [Policy(DefaultSteps, OnKind(ServiceUnavailable))];
    assert ps[1..] == last && last[1..] == [];
    var (t1, e1) := Attempt(env, op, t);
    assert Retry(env, [], op, t) == (t1, e1);
    assert Loop(env, DefaultSteps, OnKind(ServiceUnavailable), [], op, t) == (t1, e1);
    assert Retry(env, last, op, t) == (t1, e1);
  }

  lemma FirstIsAttempt(env: Env, policies: seq<Policy>, op: Op, t: Thread)
    requires Positive(policies)
    ensures var t' := Retry(env, policies, op, t).0;
            New(t, t') != [] && New(t, t')[0] == Attempt(env, op, t).1
    decreases |policies|
  {
    hide Attempt;
    hide Loop;
    hide Budget;
    RetryContract(env, policies, op, t);
    if policies == [] {
      AttemptAdds(env, op, t);
    } else {
      FirstIsAttempt(env, policies[1..], op, t);
      LoopStarts(env, policies[0].steps, policies[0].retriable, policies[1..], op, t);
    }
  }

  // ---- the user's attempts around it ----

  /** n rounds, each of m calls. */
  lemma {:induction false} SteadyRounds(env: Env, n: nat, op: Op, t: Thread)
    requires n >= 1
    ensures var (t', e) := Loop(env, n, Always, TransientPolicies(), op, t);
            e != {} && Steady(New(t, t')) ==> |New(t, t')| == 4 * n
    decreases n
  {
    hide Attempt;
    var inner := TransientPolicies();
    hide TransientPolicies;
    RetryContract(env, inner, op, t);
    SteadyRound(env, op, t);
    var (t1, e1) := Retry(env, inner, op, t);
    var (t', e) := Loop(env, n, Always, inner, op, t);
    if e1 != {} && n > 1 {
      LoopContract(env, n - 1, Always, inner, op, t1);
      NewSplits(t, t1, t', e1, e, Budget(inner), (n - 1) * Budget(inner));
      SteadyRounds(env, n - 1, op, t1);
      if Steady(New(t, t')) {
        SteadyParts(New(t, t1), New(t1, t'));
      }
    }
  }

  lemma SteadyParts(a: seq<Err>, b: seq<Err>)
    requires Steady(a + b)
    ensures Steady(a) && Steady(b)
  {
    assert forall i :: 0 <= i < |b| ==> b[i] == (a + b)[|a| + i];
    assert forall i :: 0 <= i < |a| ==> a[i] == (a + b)[i];
  }

  lemma ForeignParts(a: seq<Err>, b: seq<Err>)
    requires Foreign(a + b)
    ensures Foreign(a) && Foreign(b)
  {
    TailNoneCarries(a, b, ServerTimeout);
    TailNoneCarries(a, b, ServiceUnavailable);
  }

  /** A round of foreign results is a single call. */
  lemma ForeignRoundCounted(env: Env, op: Op, t: Thread)
    ensures var t1 := Retry(env, TransientPolicies(), op, t).0; Foreign(New(t, t1)) ==> |New(t, t1)| == 1
  {
    hide Attempt;
    FirstIsAttempt(env, TransientPolicies(), op, t);
    var t1 := Retry(env, TransientPolicies(), op, t).0;
    if Foreign(New(t, t1)) {
      ForeignRound(env, op, t);
      AttemptAdds(env, op, t);
    }
  }

  lemma {:induction false} ForeignRounds(env: Env, n: nat, op: Op, t: Thread)
    requires n >= 1
    ensures var (t', e) := Loop(env, n, Always, TransientPolicies(), op, t);
            e != {} && Foreign(New(t, t')) ==> |New(t, t')| == n
    decreases n
  {
    hide Attempt;
    var inner := TransientPolicies();
    hide TransientPolicies;
    hide Foreign;
    RetryContract(env, inner, op, t);
    ForeignRoundCounted(env, op, t);
    var (t1, e1) := Retry(env, inner, op, t);
    var (t', e) := Loop(env, n, Always, inner, op, t);
    if e1 != {} && n > 1 {
      LoopContract(env, n - 1, Always, inner, op, t1);
      NewSplits(t, t1, t', e1, e, Budget(inner), (n - 1) * Budget(inner));
      ForeignRounds(env, n - 1, op, t1);
      if Foreign(New(t, t')) {
        ForeignParts(New(t, t1), New(t1, t'));
      }
    }
  }

  // ---- the operations ----

  /** The attempts the user gets: as configured, but at least one. */
  function Tries(configured: int): nat {
    if configured <= 1 then 1 else configured
  }

  lemma WritePoliciesAre(attempts: int)
    ensures WritePolicies(attempts) == [Policy(Tries(attempts), Always)] + TransientPolicies()
  {
  }

  /** A failing Ensure or Delete has used up its attempts. If every call answers with one
      and the same transient kind it made four calls an attempt; if none answers with a
      transient kind, one; and with one attempt, one as soon as the first call fails
      otherwise. */
  lemma FailedWriteTries(env: Env, op: Op, w: World, o: Obj, attempts: int)
    ensures var (t, e) := Retry(env, WritePolicies(attempts), op, Start(w, o));
            e != {} ==>
              && |t.results| >= Tries(attempts)
              && (Steady(t.results) ==> |t.results| == 4 * Tries(attempts))
              && (Foreign(t.results) ==> |t.results| == Tries(attempts))
              && (Tries(attempts) == 1 && Foreign(t.results[..1]) ==> |t.results| == 1)
  {
    hide Attempt;
    var n, inner, t0 := Tries(attempts), TransientPolicies(), Start(w, o);
    WritePoliciesAre(attempts);
    assert WritePolicies(attempts)[1..] == inner;
    var (t, e) := Retry(env, WritePolicies(attempts), op, t0);
    assert (t, e) == Loop(env, n, Always, inner, op, t0);
    Exhausts(env, n, Always, inner, op, t0);
    SteadyRounds(env, n, op, t0);
    ForeignRounds(env, n, op, t0);
    FirstIsAttempt(env, WritePolicies(attempts), op, t0);
    assert New(t0, t) == t.results;
    if n == 1 && Foreign(t.results[..1]) {
      assert t.results[..1][0] == t.results[0];
      ForeignRound(env, op, t0);
      AttemptAdds(env, op, t0);
    }
  }

  lemma AttemptAdds(env: Env, op: Op, t: Thread)
    ensures Attempt(env, op, t).0.results == t.results + [Attempt(env, op, t).1]
  {
    hide Once;
  }

  /** A failing assert or exec has made exactly its attempts, and each failed. */
  lemma FailedReadTries(env: Env, op: Op, w: World, o: Obj, attempts: int)
    ensures var (t, e) := Retry(env, CheckPolicies(attempts), op, Start(w, o));
            e != {} ==> |t.results| == Tries(attempts) && forall i :: 0 <= i < |t.results| ==> t.results[i] != {}
  {
    hide Attempt;
    var t0 := Start(w, o);
    assert CheckPolicies(attempts)[1..] == [];
    RetryContract(env, CheckPolicies(attempts), op, t0);
    ExactlySteps(env, Tries(attempts), Always, op, t0);
    var (t, e) := Retry(env, CheckPolicies(attempts), op, t0);
    assert (t, e) == Loop(env, Tries(attempts), Always, [], op, t0);
    assert New(t0, t) == t.results;
  }

  /** A failing patch likewise, with conflicts as the transient kind. */
  lemma FailedPatchTries(env: Env, op: Op, w: World, o: Obj, attempts: int)
    ensures var (t, e) := Retry(env, PatchPolicies(attempts), op, Start(w, o));
            e != {} ==>
              && |t.results| >= Tries(attempts)
              && (AllCarry(t.results, Conflict) ==> |t.results| == 4 * Tries(attempts))
              && (NoneCarries(t.results, Conflict) ==> |t.results| == Tries(attempts))
              && (Tries(attempts) == 1 && NoneCarries(t.results[..1], Conflict) ==> |t.results| == 1)
  {
    hide Attempt;
    var n, inner, t0 := Tries(attempts), [Policy(DefaultSteps, OnKind(Conflict))], Start(w, o);
    assert PatchPolicies(attempts)[1..] == inner && inner[1..] == [];
    var (t, e) := Retry(env, PatchPolicies(attempts), op, t0);
    assert (t, e) == Loop(env, n, Always, inner, op, t0);
    assert New(t0, t) == t.results;
    Exhausts(env, n, Always, inner, op, t0);
    ConflictRounds(env, n, op, t0);
    FirstIsAttempt(env, PatchPolicies(attempts), op, t0);
    if NoneCarries(t.results, Conflict) {
      InnerIgnored(env, n, Always, DefaultSteps, Conflict, op, t0);
      ExactlySteps(env, n, Always, op, t0);
    }
    if n == 1 && NoneCarries(t.results[..1], Conflict) {
      assert t.results[..1][0] == t.results[0];
      AttemptAdds(env, op, t0);
      assert Retry(env, [], op, t0) == Attempt(env, op, t0);
      assert Loop(env, DefaultSteps, OnKind(Conflict), [], op, t0) == Attempt(env, op, t0);
    }
  }

  lemma {:induction false} ConflictRounds(env: Env, n: nat, op: Op, t: Thread)
    requires n >= 1
    ensures var (t', e) := Loop(env, n, Always, [Policy(DefaultSteps, OnKind(Conflict))], op, t);
            e != {} && AllCarry(New(t, t'), Conflict) ==> |New(t, t')| == 4 * n
    decreases n
  {
    hide Attempt;
    var inner := [Policy(DefaultSteps, OnKind(Conflict))];
    assert inner[1..] == [];
    RetryContract(env, inner, op, t);
    ExactlySteps(env, DefaultSteps, OnKind(Conflict), op, t);
    var (t1, e1) := Retry(env, inner, op, t);
    var (t', e) := Loop(env, n, Always, inner, op, t);
    if e1 != {} && n > 1 {
      LoopContract(env, n - 1, Always, inner, op, t1);
      NewSplits(t, t1, t', e1, e, Budget(inner), (n - 1) * Budget(inner));
      ConflictRounds(env, n - 1, op, t1);
      if AllCarry(New(t, t'), Conflict) {
        TailWanted(OnKind(Conflict), New(t, t1), New(t1, t'));
      }
    }
  }
}
