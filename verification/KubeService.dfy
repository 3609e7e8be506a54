/** The kube service as it is written: an object that updates the API server and
its own applied store step by step, each method proved against its function in
Lifecycle. */
module KubeService {

  import opened Errors
  import opened Objects
  import opened SafeStore
  import opened Lifecycle
  import Waiting
  import LogPolicies

  /** The API server behind the client. */
  class ApiServer {
    const env: Env
    var objects: map<Id, Obj>
    var clock: nat
    var audit: seq<Call>

    constructor (env: Env, objects: map<Id, Obj>)
      ensures this.env == env && State() == Api(objects, 0, [])
    {
      this.env := env;
      this.objects := objects;
      clock := 0;
      audit := [];
    }

    function State(): Api
      reads this
    {
      Api(objects, clock, audit)
    }

    method Record(call: Call)
      modifies this
      ensures State() == Log(old(State()), call)
    {
      clock := clock + 1;
      audit := audit + [call];
    }

    method Get(id: Id) returns (err: Err)
      modifies this
      ensures (State(), err) == Lifecycle.Get(env, old(State()), id)
    {
      match env.api(clock)
      case Rejected(fault, _) =>
        clock := clock + 1;
        return {fault};
      case Accepted =>
        var found := id in objects;
        Record(Probed(id, found));
        return if found then {} else {NotFound};
    }

    method Apply(id: Id, o: Obj) returns (err: Err)
      modifies this
      ensures (State(), err) == Lifecycle.Apply(env, old(State()), id, o)
    {
      match env.api(clock)
      case Rejected(fault, landed) =>
        if landed {
          objects := objects[id := o];
        }
        Record(Applied(id, o, false, landed));
        return {fault};
      case Accepted =>
        objects := objects[id := o];
        Record(Applied(id, o, true, true));
        return {};
    }

    method Remove(id: Id) returns (err: Err)
      modifies this
      ensures (State(), err) == Lifecycle.Remove(env, old(State()), id)
    {
      var found := id in objects;
      match env.api(clock)
      case Rejected(fault, landed) =>
        if landed {
          objects := objects - {id};
        }
        Record(Removed(id, false));
        return {fault};
      case Accepted =>
        objects := objects - {id};
        Record(Removed(id, true));
        return if found then {} else {NotFound};
    }

    method Update(id: Id, o: Obj) returns (err: Err)
      modifies this
      ensures (State(), err) == Lifecycle.Update(env, old(State()), id, o)
    {
      match env.api(clock)
      case Rejected(fault, landed) =>
        if landed && id in objects {
          objects := objects[id := o];
        }
        Record(Updated(id, false));
        return {fault};
      case Accepted =>
        if id !in objects {
          Record(Updated(id, false));
          return {NotFound};
        }
        objects := objects[id := o];
        Record(Updated(id, true));
        return {};
    }
  }

  class Service {
    const env: Env
    const server: ApiServer
    const applied: Store

    /** A fresh service starts with an empty applied cache. */
    constructor (server: ApiServer)
      ensures this.server == server && env == server.env && fresh(applied)
      ensures World() == Lifecycle.World(server.State(), map[])
    {
      this.server := server;
      env := server.env;
      applied := new Store();
    }

    ghost predicate Valid() {
      server.env == env
    }

    function World(): Lifecycle.World
      reads server, applied
    {
      Lifecycle.World(server.State(), applied.data)
    }

    method Resolve(o: Obj) returns (settled: Obj, err: Err)
      requires Valid()
      modifies server
      ensures (World(), settled, err) == Lifecycle.Resolve(env, old(World()), o)
    {
      if Untyped(o) {
        return o, {NoGvk};
      }
      var fault := env.lookup(server.clock);
      server.clock := server.clock + 1;
      if fault != {} {
        return o, fault;
      }
      if ScopeOf(env.scopes, o).Unmapped? {
        return o, {NoMapping};
      }
      settled := o;
      if ScopeOf(env.scopes, o).Namespaced? && o.ns == "" {
        settled := o.(ns := env.namespace);
      }
      err := {};
    }

    method EnsureOnce(annotations: map<string, string>, toCache: bool, o: Obj) returns (ready: Obj, err: Err)
      requires Valid()
      modifies server, applied
      ensures (World(), ready, err) == Lifecycle.EnsureOnce(env, annotations, toCache, old(World()), o)
    {
      hide AppliedKey;
      ready, err := Resolve(o);
      if err != {} {
        return;
      }
      ready := Annotate(ready, annotations);
      var id := IdOf(env.scopes, ready);
      err := server.Get(id);
      if err != {} && NotFound !in err {
        return;
      }
      var created := NotFound in err;
      err := server.Apply(id, ready);
      if err != {} {
        return;
      }
      if created && toCache {
        applied.Put(AppliedKey(ready), ready);
      }
    }

    method DeleteOnce(o: Obj) returns (settled: Obj, err: Err)
      requires Valid()
      modifies server, applied
      ensures (World(), settled, err) == Lifecycle.DeleteOnce(env, old(World()), o)
    {
      hide AppliedKey;
      settled, err := Resolve(o);
      if err != {} {
        return;
      }
      applied.Delete(AppliedKey(settled));
      err := server.Remove(IdOf(env.scopes, settled));
      if NotFound in err {
        err := {};
      }
    }

    method CheckOnce(conditions: seq<string>, o: Obj) returns (settled: Obj, err: Err)
      requires Valid()
      modifies server
      ensures (World(), settled, err) == Lifecycle.CheckOnce(env, conditions, old(World()), o)
    {
      settled, err := Resolve(o);
      if err != {} {
        return;
      }
      var id := IdOf(env.scopes, settled);
      err := server.Get(id);
      if err != {} || id !in server.objects {
        return;
      }
      var v := Waiting.Evaluate(env.judge, conditions, server.objects[id]);
      match v
      case Pass =>
      case Unmet => err := {ConditionUnmet};
      case Broken(e) => err := e;
    }

    method PatchOnce(patches: seq<string>, o: Obj) returns (same: Obj, err: Err)
      requires Valid()
      modifies server
      ensures (World(), same, err) == Lifecycle.PatchOnce(env, patches, old(World()), o)
    {
      same := o;
      var id := IdOf(env.scopes, o);
      err := server.Get(id);
      if err != {} || id !in server.objects {
        return;
      }
      match env.patch(patches, server.objects[id])
      case None => err := {NotPatched};
      case Some(patched) => err := server.Update(IdOf(env.scopes, patched), patched);
    }

    method Once(op: Op, o: Obj) returns (o': Obj, err: Err)
      requires Valid()
      modifies server, applied
      ensures (World(), o', err) == Lifecycle.Once(env, op, old(World()), o)
    {
      hide Lifecycle.EnsureOnce;
      hide Lifecycle.DeleteOnce;
      hide Lifecycle.PatchOnce;
      hide Lifecycle.CheckOnce;
      match op
      case EnsureOp(annotations, toCache) => o', err := EnsureOnce(annotations, toCache, o);
      case DeleteOp => o', err := DeleteOnce(o);
      case PatchOp(patches) => o', err := PatchOnce(patches, o);
      case CheckOp(conditions) => o', err := CheckOnce(conditions, o);
      case ExecOp =>
        o', err := o, env.exec(server.clock);
        server.clock := server.clock + 1;
    }

    /** retry.OnError once per policy, the last one around the attempt itself. */
    method Retry(policies: seq<Policy>, op: Op, o: Obj, results: seq<Err>)
      returns (o': Obj, results': seq<Err>, err: Err)
      requires Valid()
      modifies server, applied
      ensures (Thread(World(), o', results'), err)
           == Lifecycle.Retry(env, policies, op, Thread(old(World()), o, results))
      decreases |policies|
    {
      hide Lifecycle.Once;
      if policies == [] {
        o', err := Once(op, o);
        results' := results + [err];
        return;
      }
      o', results', err := o, results, {};
      var steps, retriable, inner := policies[0].steps, policies[0].retriable, policies[1..];
      if steps == 0 {
        return;
      }
      while true
        invariant steps >= 1
        invariant Lifecycle.Retry(env, policies, op, Thread(old(World()), o, results))
               == Loop(env, steps, retriable, inner, op, Thread(World(), o', results'))
        decreases steps
      {
        o', results', err := Retry(inner, op, o', results');
        if err == {} || !Retries(retriable, err) || steps == 1 {
          return;
        }
        steps := steps - 1;
      }
    }

    method Ensure(o: Obj, annotations: map<string, string>, toCache: bool, attempts: int) returns (err: Err)
      requires Valid()
      modifies server, applied
      ensures (World(), err) == Lifecycle.Ensure(env, old(World()), o, annotations, toCache, attempts)
    {
      hide Lifecycle.Retry;
      if env.dryRun {
        return {};
      }
      var _, _, e := Retry(WritePolicies(attempts), EnsureOp(annotations, toCache), o, []);
      err := e;
    }

    method WaitFor(o: Obj, conditions: seq<string>, onDeletion: bool) returns (err: Err)
      requires Valid()
      modifies server
      ensures (World(), err) == Lifecycle.WaitFor(env, old(World()), o, conditions, onDeletion)
    {
      hide Waiting.Wait;
      if env.dryRun {
        return {};
      }
      var settled, e := Resolve(o);
      if e != {} {
        return e;
      }
      err := Waiting.PollEvents(env.judge, Waiting.Query(RefOf(settled), conditions, onDeletion),
        env.feed(server.clock));
      server.clock := server.clock + 1;
    }

    method Delete(o: Obj, wait: bool, attempts: int, origin: Origin) returns (err: Err)
      requires Valid()
      modifies server, applied
      ensures (World(), err) == Lifecycle.Delete(env, old(World()), o, wait, attempts, origin)
    {
      hide Lifecycle.Retry;
      hide Lifecycle.WaitFor;
      if env.dryRun {
        return {};
      }
      var _, _, e := Retry(WritePolicies(attempts), DeleteOp, o, []);
      server.Record(Deleted(Target(env, o), e == {}, origin));
      if e != {} || !wait {
        return e;
      }
      err := WaitFor(o, [], true);
    }

    method Patch(o: Obj, patches: seq<string>, attempts: int) returns (err: Err)
      requires Valid()
      modifies server, applied
      ensures (World(), err) == Lifecycle.Patch(env, old(World()), o, patches, attempts)
    {
      hide Lifecycle.Retry;
      if env.dryRun {
        return {};
      }
      var settled, e := Resolve(o);
      if e != {} {
        return e;
      }
      var _, _, e2 := Retry(PatchPolicies(attempts), PatchOp(patches), settled, []);
      err := e2;
    }

    method Check(o: Obj, conditions: seq<string>, attempts: int) returns (err: Err)
      requires Valid()
      modifies server, applied
      ensures (World(), err) == Lifecycle.Check(env, old(World()), o, conditions, attempts)
    {
      hide Lifecycle.Retry;
      if env.dryRun {
        return {};
      }
      var _, _, e := Retry(CheckPolicies(attempts), CheckOp(conditions), o, []);
      err := e;
    }

    method Exec(o: Obj, attempts: int) returns (err: Err)
      requires Valid()
      modifies server, applied
      ensures (World(), err) == Lifecycle.Exec(env, old(World()), o, attempts)
    {
      hide Lifecycle.Retry;
      if env.dryRun {
        return {};
      }
      var _, _, e := Retry(CheckPolicies(attempts), ExecOp, o, []);
      err := e;
    }

    method LogsCheck(policy: LogPolicies.Policy, part: string) returns (err: Err)
      requires Valid()
      modifies server
      ensures (World(), err) == Lifecycle.LogsCheck(env, old(World()), policy, part)
    {
      hide LogPolicies.LogsContains;
      if env.dryRun {
        return {};
      }
      err := LogPolicies.PollLogs(policy, env.window(server.clock), part);
      server.clock := server.clock + 1;
    }

    /** Best effort: a failed delete is recorded and the sweep goes on. */
    method Cleanup() returns (err: Err)
      requires Valid()
      modifies server, applied
      ensures (World(), err) == Lifecycle.Cleanup(env, old(World()))
    {
      hide Lifecycle.Delete;
      err := {};
      if env.dryRun {
        return;
      }
      var snapshot := applied.Snapshot();
      var order := env.order(server.clock, snapshot.Keys);
      assert order[0..] == order;
      ghost var total := Lifecycle.Cleanup(env, old(World()));
      assert {} + total.1 == total.1;
      for n := 0 to |order|
        invariant Valid()
        invariant var (w', e') := Sweep(env, World(), snapshot, order[n..]);
                  total == (w', err + e')
      {
        assert order[n..][1..] == order[n + 1..];
        if order[n] in snapshot {
          var e := Delete(snapshot[order[n]], false, 1, BySweep);
          ghost var rest := Sweep(env, World(), snapshot, order[n + 1..]).1;
          assert err + (e + rest) == err + e + rest;
          err := err + e;
        }
      }
    }
  }
}
