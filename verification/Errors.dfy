/** Errors as the set of kinds found in their chain.

Wrapping with %w keeps every kind and errors.Join unites them, so an error is
modelled by the set of kinds errors.Is or errors.As would find in it. The nil
error is the empty set. */
module Errors {

  datatype Kind =
    | NotFound | Conflict | ServerTimeout | ServiceUnavailable
    | Canceled | DeadlineExceeded
    | NoGvk | NoMapping | NilObject | NilStep | NotInMap | NotRendered
    | NotParsed | NotLoaded | NotPatched
    | ConditionError | ConditionUnmet
    | LogsNotContain | LogsForbidden
    | Other

  type Err = set<Kind>

  const Nil: Err := {}

  /** The API server answers NotFound only about its own state, so an injected
      fault is any other kind. */
  type Fault = k: Kind | k != NotFound witness Other

  /** errors.Join: nil exactly when every part is nil. */
  function Join(errs: seq<Err>): (joined: Err)
    ensures joined == {} <==> forall i :: 0 <= i < |errs| ==> errs[i] == {}
    ensures forall k :: k in joined <==> exists i :: 0 <= i < |errs| && k in errs[i]
  {
    if errs == [] then {} else errs[0] + Join(errs[1..])
  }

  lemma {:induction false} JoinAppend(a: seq<Err>, b: seq<Err>)
    ensures Join(a + b) == Join(a) + Join(b)
  {
    if a == [] {
      assert a + b == b;
    } else {
      assert (a + b)[1..] == a[1..] + b;
      JoinAppend(a[1..], b);
    }
  }

  /** The class of case errors that makes a suite stop early. */
  predicate Interrupts(e: Err) {
    Canceled in e || DeadlineExceeded in e
  }
}
