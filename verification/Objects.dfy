/** Kubernetes objects, their identity on the API server, and the key under
which the applied cache files them. */
module Objects {

  datatype Option<+T> = None | Some(value: T)

  datatype Obj = Obj(
    group: string, version: string, kind: string,
    ns: string, name: string,
    annotations: map<string, string>, body: string)

  /** How the REST mapper resolves a group and kind. */
  datatype Scope = Unmapped | Namespaced | ClusterWide

  type Scopes = (string, string) -> Scope

  /** The API server's own identity of an object: cluster-wide kinds have no namespace. */
  datatype Id = Id(group: string, kind: string, ns: string, name: string)

  /** What an object says about itself, as far as caching and addressing go. */
  datatype Ref = Ref(group: string, kind: string, ns: string, name: string)

  function RefOf(o: Obj): Ref {
    Ref(o.group, o.kind, o.ns, o.name)
  }

  function ScopeOf(scopes: Scopes, o: Obj): Scope {
    scopes(o.group, o.kind)
  }

  function IdOf(scopes: Scopes, o: Obj): Id {
    Id(o.group, o.kind, if ScopeOf(scopes, o).Namespaced? then o.ns else "", o.name)
  }

  predicate Untyped(o: Obj) {
    o.group == "" && o.version == "" && o.kind == ""
  }

  /** The in-place namespace defaulting of setNamespace, once the mapping is known. */
  function Settle(scopes: Scopes, namespace: string, o: Obj): (r: Obj)
    ensures RefOf(r) == RefOf(o).(ns := r.ns)
  {
    if ScopeOf(scopes, o).Namespaced? && o.ns == "" then o.(ns := namespace) else o
  }

  function Annotate(o: Obj, extra: map<string, string>): Obj {
    o.(annotations := o.annotations + extra)
  }

  function AppliedKey(o: Obj): string {
    o.ns + "/" + o.kind + "/" + o.name
  }

  predicate NoSlash(s: string) {
    '/' !in s
  }

  predicate SlashFree(r: Ref) {
    NoSlash(r.ns) && NoSlash(r.kind) && NoSlash(r.name)
  }

  /** A longer slash-free head puts a non-separator where the shorter one ends. */
  lemma HeadsOfOneLength(a: string, x: string, b: string, y: string)
    requires NoSlash(b) && |a| < |b|
    ensures a + "/" + x != b + "/" + y
  {
    assert (a + "/" + x)[|a|] == '/';
    assert (b + "/" + y)[|a|] == b[|a|];
  }

  /** Cutting at the first separator is unambiguous when the head has none. */
  lemma CutAtSlash(a: string, x: string, b: string, y: string)
    requires NoSlash(a) && NoSlash(b)
    requires a + "/" + x == b + "/" + y
    ensures a == b && x == y
  {
    assert |a| == |b| by {
      if |a| < |b| { HeadsOfOneLength(a, x, b, y); }
      if |b| < |a| { HeadsOfOneLength(b, y, a, x); }
    }
    var whole := a + "/" + x;
    assert whole[..|a|] == a && whole[|a| + 1..] == x;
    assert whole == b + "/" + y && whole[..|b|] == b && whole[|b| + 1..] == y;
  }

  /** Slash-free references with different namespace, kind or name get different keys. */
  lemma KeyInjective(o: Obj, p: Obj)
    requires SlashFree(RefOf(o)) && SlashFree(RefOf(p))
    ensures AppliedKey(o) == AppliedKey(p) <==> o.ns == p.ns && o.kind == p.kind && o.name == p.name
  {
    if AppliedKey(o) == AppliedKey(p) {
      assert AppliedKey(o) == o.ns + "/" + (o.kind + "/" + o.name);
      assert AppliedKey(p) == p.ns + "/" + (p.kind + "/" + p.name);
      CutAtSlash(o.ns, o.kind + "/" + o.name, p.ns, p.kind + "/" + p.name);
      CutAtSlash(o.kind, o.name, p.kind, p.name);
    }
  }

  /** Two references to one server object, each with its namespace explicit or
      defaulted, share their cache key exactly when the kind is namespaced or the
      two references carry the same (meaningless) namespace. */
  lemma KeyAgreement(scopes: Scopes, namespace: string, o: Obj, p: Obj)
    requires var a, b := Settle(scopes, namespace, o), Settle(scopes, namespace, p);
             SlashFree(RefOf(a)) && SlashFree(RefOf(b)) && IdOf(scopes, a) == IdOf(scopes, b)
    ensures AppliedKey(Settle(scopes, namespace, o)) == AppliedKey(Settle(scopes, namespace, p))
      <==> ScopeOf(scopes, o).Namespaced? || o.ns == p.ns
  {
    KeyInjective(Settle(scopes, namespace, o), Settle(scopes, namespace, p));
  }

  /** Defaulting and annotation merging are idempotent and leave key, identity and
      each other alone: re-running them on a retried object changes nothing. */
  lemma PreparationIdempotent(scopes: Scopes, namespace: string, extra: map<string, string>, o: Obj)
    ensures var once := Annotate(Settle(scopes, namespace, o), extra);
            && Annotate(Settle(scopes, namespace, once), extra) == once
            && AppliedKey(once) == AppliedKey(Settle(scopes, namespace, o))
            && IdOf(scopes, once) == IdOf(scopes, Settle(scopes, namespace, o))
            && RefOf(once) == RefOf(Settle(scopes, namespace, o))
  {
    var settled := Settle(scopes, namespace, o);
    var once := Annotate(settled, extra);
    assert once.annotations + extra == once.annotations;
  }

  /** The cache key leaves the API group out, so two objects that differ only in
      group are filed under one key although the server tells them apart. */
  lemma GroupsShareAKey(scopes: Scopes, o: Obj, group: string)
    requires group != o.group
    ensures AppliedKey(o) == AppliedKey(o.(group := group))
    ensures IdOf(scopes, o) != IdOf(scopes, o.(group := group))
  {
  }
}
