/** The key-value store behind the applied cache (lock-protected in the source;
each method here is one critical section). */
module SafeStore {

  import opened Objects

  /** An iteration order over a snapshot: every key exactly once. */
  ghost predicate Enumerates(order: seq<string>, keys: set<string>) {
    && (forall k :: k in order <==> k in keys)
    && forall i, j :: 0 <= i < j < |order| ==> order[i] != order[j]
  }

  class Store {
    var data: map<string, Obj>

    constructor ()
      ensures data == map[]
    {
      data := map[];
    }

    method Put(key: string, value: Obj)
      modifies this
      ensures data == old(data)[key := value]
    {
      data := data[key := value];
    }

    /** A no-op when the key is absent. */
    method Delete(key: string)
      modifies this
      ensures data == old(data) - {key}
    {
      data := data - {key};
    }

    /** The point-in-time copy that iteration ranges over. */
    method Snapshot() returns (copy: map<string, Obj>)
      ensures copy == data
    {
      copy := data;
    }
  }
}
