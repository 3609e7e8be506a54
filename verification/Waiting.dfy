/** Service.Wait: the event loop over kstatus updates. The poller is reduced to
the events it delivers and the context error at the moment its channel closes. */
module Waiting {

  import opened Errors
  import opened Objects

  type Failure = e: Err | e != {} witness {Other}

  /** What evaluating one JQ condition on one manifest yields. */
  datatype Verdict = Pass | Unmet | Broken(error: Failure)

  type Judge = (string, Obj) -> Verdict

  datatype Event =
    | ErrorEvent(error: Failure)
    | ResourceEvent(ref: Ref, notFound: bool, manifest: Option<Obj>)
    | BareEvent  // a sync event, or any event without a resource

  /** The events of one poll and ctx.Err() once the channel is closed. */
  datatype Feed = Feed(events: seq<Event>, closing: Err)

  datatype Query = Query(ref: Ref, conditions: seq<string>, onDeletion: bool)

  /** The first condition that does not pass decides. */
  function JudgeAll(judge: Judge, conditions: seq<string>, m: Obj): (v: Verdict)
    ensures v.Pass? <==> forall i :: 0 <= i < |conditions| ==> judge(conditions[i], m).Pass?
  {
    if conditions == [] then Pass
    else
      var v := judge(conditions[0], m);
      if v.Pass? then JudgeAll(judge, conditions[1..], m) else v
  }

  predicate Own(q: Query, ev: Event) {
    ev.ResourceEvent? && ev.ref == q.ref
  }

  predicate Gone(q: Query, ev: Event) {
    Own(q, ev) && ev.notFound
  }

  /** The object is gone in deletion mode, or a manifest meets every condition. */
  predicate Satisfies(judge: Judge, q: Query, ev: Event) {
    || (q.onDeletion && Gone(q, ev))
    || (Own(q, ev) && ev.manifest.Some?
        && forall i :: 0 <= i < |q.conditions| ==> judge(q.conditions[i], ev.manifest.value).Pass?)
  }

  /** An error event, or a condition that cannot be evaluated on a manifest. */
  predicate Fails(judge: Judge, q: Query, ev: Event) {
    || ev.ErrorEvent?
    || (Own(q, ev) && !(q.onDeletion && ev.notFound) && ev.manifest.Some?
        && JudgeAll(judge, q.conditions, ev.manifest.value).Broken?)
  }

  predicate Decides(judge: Judge, q: Query, ev: Event) {
    Satisfies(judge, q, ev) || Fails(judge, q, ev)
  }

  /** The error Wait returns on an event that decides. */
  function Answer(judge: Judge, q: Query, ev: Event): (e: Err)
    requires Decides(judge, q, ev)
    ensures e == {} <==> Satisfies(judge, q, ev)
  {
    if Satisfies(judge, q, ev) then {}
    else if ev.ErrorEvent? then ev.error
    else JudgeAll(judge, q.conditions, ev.manifest.value).error
  }

  function Wait(judge: Judge, q: Query, feed: Feed): Err
    decreases |feed.events|
  {
    if feed.events == [] then feed.closing
    else if Decides(judge, q, feed.events[0]) then Answer(judge, q, feed.events[0])
    else Wait(judge, q, feed.(events := feed.events[1..]))
  }

  /** Wait stops at event n: n decides and nothing before it does. */
  predicate StopsAt(judge: Judge, q: Query, feed: Feed, n: nat) {
    n < |feed.events| && Decides(judge, q, feed.events[n])
    && forall i :: 0 <= i < n ==> !Decides(judge, q, feed.events[i])
  }

  lemma {:induction false} WaitAtStop(judge: Judge, q: Query, feed: Feed, n: nat)
    requires StopsAt(judge, q, feed, n)
    ensures Wait(judge, q, feed) == Answer(judge, q, feed.events[n])
    decreases n
  {
    if n > 0 {
      var rest := feed.(events := feed.events[1..]);
      forall i | 0 <= i < n - 1 ensures !Decides(judge, q, rest.events[i]) {
        assert rest.events[i] == feed.events[i + 1];
      }
      WaitAtStop(judge, q, rest, n - 1);
    }
  }

  lemma {:induction false} WaitStopsOrCloses(judge: Judge, q: Query, feed: Feed) returns (n: nat)
    ensures n <= |feed.events| && forall i :: 0 <= i < n ==> !Decides(judge, q, feed.events[i])
    ensures n < |feed.events| ==> StopsAt(judge, q, feed, n)
    ensures n == |feed.events| ==> Wait(judge, q, feed) == feed.closing
    decreases |feed.events|
  {
    n := 0;
    if feed.events != [] && !Decides(judge, q, feed.events[0]) {
      var rest := feed.(events := feed.events[1..]);
      var m := WaitStopsOrCloses(judge, q, rest);
      n := m + 1;
      forall i | 0 <= i < n ensures !Decides(judge, q, feed.events[i]) {
        assert i > 0 ==> feed.events[i] == rest.events[i - 1];
      }
    }
  }

  /** Wait returns nil exactly when the first event that decides satisfies the
      query, or when nothing decides and the channel closes on a live context. */
  lemma WaitNilIff(judge: Judge, q: Query, feed: Feed)
    ensures Wait(judge, q, feed) == {} <==>
      || (exists n: nat :: StopsAt(judge, q, feed, n) && Satisfies(judge, q, feed.events[n]))
      || (feed.closing == {} && forall i :: 0 <= i < |feed.events| ==> !Decides(judge, q, feed.events[i]))
  {
    var n := WaitStopsOrCloses(judge, q, feed);
    if n < |feed.events| {
      WaitAtStop(judge, q, feed, n);
    }
    forall m: nat | StopsAt(judge, q, feed, m) && Satisfies(judge, q, feed.events[m])
      ensures Wait(judge, q, feed) == {}
    {
      WaitAtStop(judge, q, feed, m);
    }
  }

  /** A wait that nothing decides before its own deadline reports that deadline,
      which is an error of the class that stops a suite. */
  lemma WaitTimeoutInterrupts(judge: Judge, q: Query, feed: Feed)
    requires forall i :: 0 <= i < |feed.events| ==> !Decides(judge, q, feed.events[i])
    requires DeadlineExceeded in feed.closing
    ensures Interrupts(Wait(judge, q, feed))
  {
    var n := WaitStopsOrCloses(judge, q, feed);
  }

  /** Only error events and events of the queried object. */
  function Relevant(q: Query, events: seq<Event>): seq<Event> {
    if events == [] then []
    else (if events[0].ErrorEvent? || Own(q, events[0]) then [events[0]] else []) + Relevant(q, events[1..])
  }

  /** Events of other objects and sync events never change the result. */
  lemma {:induction false} IrrelevantEventsIgnored(judge: Judge, q: Query, feed: Feed)
    ensures Wait(judge, q, feed) == Wait(judge, q, feed.(events := Relevant(q, feed.events)))
    decreases |feed.events|
  {
    if feed.events != [] {
      var rest := feed.(events := feed.events[1..]);
      IrrelevantEventsIgnored(judge, q, rest);
      var kept := Relevant(q, feed.events);
      if feed.events[0].ErrorEvent? || Own(q, feed.events[0]) {
        assert kept[1..] == Relevant(q, rest.events);
      } else {
        assert kept == Relevant(q, rest.events);
      }
    }
  }

  /** The delete-wait query: deletion mode without conditions. */
  function DeletionQuery(ref: Ref): Query {
    Query(ref, [], true)
  }

  /** The deletion wait ends on the object's disappearance exactly when the object
      disappears with no error event and no manifest of it before: with no
      conditions, any manifest of a still-present object also ends the wait. */
  lemma DeletionWaitEndsGoneIff(judge: Judge, ref: Ref, feed: Feed)
    ensures (exists n: nat :: StopsAt(judge, DeletionQuery(ref), feed, n) && Gone(DeletionQuery(ref), feed.events[n]))
       <==> exists g: nat :: g < |feed.events|
              && Gone(DeletionQuery(ref), feed.events[g]) && Undecided(ref, feed.events[..g])
  {
    var q := DeletionQuery(ref);
    forall i | 0 <= i < |feed.events|
      ensures Decides(judge, q, feed.events[i]) <==> Gone(q, feed.events[i]) || Ends(ref, feed.events[i])
    {
    }
    if exists n: nat :: StopsAt(judge, q, feed, n) && Gone(q, feed.events[n]) {
      var n: nat :| StopsAt(judge, q, feed, n) && Gone(q, feed.events[n]);
      assert Undecided(ref, feed.events[..n]);
    }
    if exists g: nat :: g < |feed.events| && Gone(q, feed.events[g]) && Undecided(ref, feed.events[..g]) {
      var g: nat :| g < |feed.events| && Gone(q, feed.events[g]) && Undecided(ref, feed.events[..g]);
      var n := WaitStopsOrCloses(judge, q, feed);
      assert n <= g;
      assert n < g ==> feed.events[n] == feed.events[..g][n];
    }
  }

  /** An error event, or a manifest of the object. */
  predicate Ends(ref: Ref, ev: Event) {
    ev.ErrorEvent? || (Own(DeletionQuery(ref), ev) && ev.manifest.Some?)
  }

  predicate Undecided(ref: Ref, events: seq<Event>) {
    forall i :: 0 <= i < |events| ==> !Ends(ref, events[i])
  }

  /** "Blocks until the object is gone" is not what the code does: a manifest of
      the object that is still there ends the wait successfully, and so does a channel
      that closes on a live context. */
  lemma DeletionWaitCanEndEarly(judge: Judge, m: Obj)
    ensures var present := ResourceEvent(RefOf(m), false, Some(m));
            var q := DeletionQuery(RefOf(m));
            !Gone(q, present) && Wait(judge, q, Feed([present], {DeadlineExceeded})) == {}
            && Wait(judge, q, Feed([], {})) == {}
  {
    var present := ResourceEvent(RefOf(m), false, Some(m));
    var q := DeletionQuery(RefOf(m));
    WaitAtStop(judge, q, Feed([present], {DeadlineExceeded}), 0);
  }

  /** The conditions in order, until one is not met or cannot be evaluated. */
  method Evaluate(judge: Judge, conditions: seq<string>, m: Obj) returns (v: Verdict)
    ensures v == JudgeAll(judge, conditions, m)
  {
    assert conditions[0..] == conditions;
    for c := 0 to |conditions|
      invariant JudgeAll(judge, conditions, m) == JudgeAll(judge, conditions[c..], m)
    {
      assert conditions[c..][1..] == conditions[c + 1..];
      v := judge(conditions[c], m);
      if !v.Pass? {
        return;
      }
    }
    return Pass;
  }

  /** What the loop body makes of one event: the error to return, or none. */
  method Inspect(judge: Judge, q: Query, ev: Event) returns (answer: Option<Err>)
    ensures answer == if Decides(judge, q, ev) then Some(Answer(judge, q, ev)) else None
  {
    hide JudgeAll;
    match ev
    case ErrorEvent(e) => return Some(e);
    case BareEvent => return None;
    case ResourceEvent(ref, notFound, manifest) =>
      if ref != q.ref {
        return None;
      }
      if q.onDeletion && notFound {
        return Some({});
      }
      if manifest.None? {
        return None;
      }
      if |q.conditions| == 0 {
        return Some({});
      }
      var v := Evaluate(judge, q.conditions, manifest.value);
      match v
      case Pass => return Some({});
      case Unmet => return None;
      case Broken(e) => return Some(e);
  }

  /** The event loop: the first event with an answer ends it. */
  method PollEvents(judge: Judge, q: Query, feed: Feed) returns (err: Err)
    ensures err == Wait(judge, q, feed)
  {
    hide Decides;
    hide Answer;
    assert feed.(events := feed.events[0..]) == feed;
    for n := 0 to |feed.events|
      invariant Wait(judge, q, feed) == Wait(judge, q, feed.(events := feed.events[n..]))
    {
      assert feed.events[n..][1..] == feed.events[n + 1..];
      var answer := Inspect(judge, q, feed.events[n]);
      if answer.Some? {
        return answer.value;
      }
    }
    return feed.closing;
  }
}
