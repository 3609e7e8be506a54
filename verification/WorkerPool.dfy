/** The bounded pool: one goroutine per object on a limited errgroup.

Starting an object takes a slot, waiting for one when all are taken; a worker that
returns gives its slot back. The first error returned is kept and cancels the
group's context, and Wait hands it on once every worker has returned. */
module WorkerPool {

  import opened Errors

  datatype Event = Start | Return(worker: nat, err: Err)

  datatype Group = Group(next: nat, slots: int, active: set<nat>, returned: seq<nat>, first: Err, cancelled: bool)

  const Idle := Group(0, 0, {}, [], {}, false)

  predicate Enabled(limit: nat, n: nat, g: Group, ev: Event) {
    match ev
    case Start => g.next < n && g.slots < limit
    case Return(i, _) => i in g.active
  }

  function Step(g: Group, ev: Event): Group {
    match ev
    case Start => g.(next := g.next + 1, slots := g.slots + 1, active := g.active + {g.next})
    case Return(i, e) =>
      g.(slots := g.slots - 1, active := g.active - {i}, returned := g.returned + [i],
         first := if g.first == {} then e else g.first, cancelled := g.cancelled || e != {})
  }

  function After(events: seq<Event>): Group {
    if events == [] then Idle else Step(After(events[..|events| - 1]), events[|events| - 1])
  }

  /** An interleaving the pool allows. */
  predicate Schedule(limit: nat, n: nat, events: seq<Event>) {
    events != [] ==>
      && Schedule(limit, n, events[..|events| - 1])
      && Enabled(limit, n, After(events[..|events| - 1]), events[|events| - 1])
  }

  /** Wait returns. */
  predicate Complete(n: nat, g: Group) {
    g.next == n && g.active == {}
  }

  // ---- what every interleaving keeps ----

  predicate Distinct(s: seq<nat>) {
    forall i, j :: 0 <= i < j < |s| ==> s[i] != s[j]
  }

  predicate Bounded(limit: nat, n: nat, g: Group) {
    && g.next <= n
    && 0 <= g.slots <= limit && |g.active| == g.slots
    && |g.returned| + g.slots == g.next
  }

  ghost predicate RunOnce(g: Group) {
    && Distinct(g.returned)
    && (forall i: nat :: i in g.active || i in g.returned <==> i < g.next)
    && (forall i :: i in g.active ==> i !in g.returned)
  }

  lemma StepBounded(limit: nat, n: nat, g: Group, ev: Event)
    requires Bounded(limit, n, g) && RunOnce(g) && Enabled(limit, n, g, ev)
    ensures Bounded(limit, n, Step(g, ev))
  {
    if ev.Return? {
      assert |g.active - {ev.worker}| == |g.active| - 1;
    } else {
      assert g.next !in g.active;
    }
  }

  lemma StartsOnce(g: Group)
    requires RunOnce(g)
    ensures RunOnce(Step(g, Start))
  {
    var active := g.active + {g.next};
    forall i: nat ensures i in active || i in g.returned <==> i < g.next + 1 {
      assert i in g.active || i in g.returned <==> i < g.next;
    }
  }

  lemma ReturnsOnce(g: Group, i: nat, e: Err)
    requires RunOnce(g) && i in g.active
    ensures RunOnce(Step(g, Return(i, e)))
  {
    var returned := g.returned + [i];
    assert i !in g.returned;
    assert Distinct(returned);
    forall j: nat ensures j in g.active - {i} || j in returned <==> j < g.next {
      assert j in returned <==> j in g.returned || j == i;
      assert j in g.active || j in g.returned <==> j < g.next;
    }
  }

  lemma StepKeeps(limit: nat, n: nat, g: Group, ev: Event)
    requires Bounded(limit, n, g) && RunOnce(g) && Enabled(limit, n, g, ev)
    ensures Bounded(limit, n, Step(g, ev)) && RunOnce(Step(g, ev))
  {
    StepBounded(limit, n, g, ev);
    hide RunOnce;
    match ev
    case Start => StartsOnce(g);
    case Return(i, e) => ReturnsOnce(g, i, e);
  }

  /** Never more than the limit at once; every worker started so far is running or
      has returned, once. */
  lemma {:induction false} PoolInvariant(limit: nat, n: nat, events: seq<Event>)
    requires Schedule(limit, n, events)
    ensures Bounded(limit, n, After(events)) && RunOnce(After(events))
  {
    if events != [] {
      var init := events[..|events| - 1];
      PoolInvariant(limit, n, init);
      StepKeeps(limit, n, After(init), events[|events| - 1]);
    }
  }

  /** When Wait returns, every object has been processed exactly once. */
  lemma EachOnce(limit: nat, n: nat, events: seq<Event>)
    requires Schedule(limit, n, events) && Complete(n, After(events))
    ensures |After(events).returned| == n && Distinct(After(events).returned)
    ensures forall i: nat :: i in After(events).returned <==> i < n
  {
    PoolInvariant(limit, n, events);
  }

  /** A started pool with a positive limit can always move until it is complete. */
  lemma NeverStuck(limit: nat, n: nat, events: seq<Event>)
    requires Schedule(limit, n, events) && limit >= 1
    ensures Complete(n, After(events)) || exists ev :: Schedule(limit, n, events + [ev])
  {
    PoolInvariant(limit, n, events);
    var g := After(events);
    if !Complete(n, g) {
      var ev := if g.active == {} then Start else var i :| i in g.active; Return(i, {});
      assert Enabled(limit, n, g, ev);
      assert (events + [ev])[..|events|] == events;
      assert Schedule(limit, n, events + [ev]);
    }
  }

  lemma {:induction false} StepsCounted(events: seq<Event>)
    ensures |events| == After(events).next + |After(events).returned|
  {
    if events != [] {
      StepsCounted(events[..|events| - 1]);
    }
  }

  /** Every interleaving is complete after exactly two steps per object, and no
      interleaving is longer. */
  lemma TwoStepsEach(limit: nat, n: nat, events: seq<Event>)
    requires Schedule(limit, n, events)
    ensures |events| <= 2 * n && (|events| == 2 * n <==> Complete(n, After(events)))
  {
    PoolInvariant(limit, n, events);
    StepsCounted(events);
    var g := After(events);
    assert g.slots == 0 <==> g.active == {};
  }

  // ---- what Wait returns ----

  /** The first error a worker returned, in the order of returning. */
  function FirstError(events: seq<Event>): Err {
    if events == [] then {}
    else
      var last := |events| - 1;
      var earlier := FirstError(events[..last]);
      if earlier != {} then earlier else if events[last].Return? then events[last].err else {}
  }

  predicate AllReturnNil(events: seq<Event>) {
    forall k :: 0 <= k < |events| && events[k].Return? ==> events[k].err == {}
  }

  /** Wait's error is the first one returned; it is nil, and the context stays
      live, exactly when every worker returned nil. */
  lemma {:induction false} WaitReturnsFirst(events: seq<Event>)
    ensures After(events).first == FirstError(events)
    ensures After(events).first == {} <==> AllReturnNil(events)
    ensures After(events).cancelled <==> !AllReturnNil(events)
  {
    if events != [] {
      var last := |events| - 1;
      WaitReturnsFirst(events[..last]);
      assert AllReturnNil(events) <==>
        AllReturnNil(events[..last])
        && (events[last].Return? ==> events[last].err == {}) by {
        assert forall k :: 0 <= k < last ==> events[..last][k] == events[k];
      }
    }
  }

  /** One after the other, in order. */
  predicate InOrder(g: Group) {
    && (forall k :: 0 <= k < |g.returned| ==> g.returned[k] == k)
    && (forall i :: i in g.active ==> i == |g.returned|)
  }

  lemma StepInOrder(n: nat, g: Group, ev: Event)
    requires Bounded(1, n, g) && InOrder(g) && Enabled(1, n, g, ev)
    ensures InOrder(Step(g, ev))
  {
    if ev.Start? {
      assert g.active == {};
    }
  }

  /** With a limit of one the objects are processed one after the other. */
  lemma {:induction false} OneAtATime(n: nat, events: seq<Event>)
    requires Schedule(1, n, events)
    ensures InOrder(After(events))
  {
    if events != [] {
      var init := events[..|events| - 1];
      OneAtATime(n, init);
      PoolInvariant(1, n, init);
      StepInOrder(n, After(init), events[|events| - 1]);
    }
  }
}
