/**
 The graph model of alya-di: type references, providers, invokes and bindings, the lookup
 tables the resolver builds from them, and the relation between a provider and the providers
 its parameters need.  A type is its key, the base name of the Go type and the qualifier under
 which the source wrote it; the generator inspects nothing else.
 */
module DiModel {

  type Key = string

  datatype Result<+T, +E> = Ok(value: T) | Err(error: E)

  /** `base` is baseTypeName, `qualifier` outputFieldQualifier, `custom` the name of di.Named. */
  datatype TypeRef = TypeRef(key: Key, base: string, qualifier: string, custom: string)

  datatype Provider = Provider(expr: string, params: seq<TypeRef>, result: TypeRef, hasError: bool, hasCleanup: bool)

  datatype Invoke = Invoke(expr: string, params: seq<TypeRef>, returnsErr: bool)

  datatype Binding = Binding(iface: TypeRef, concrete: TypeRef)

  datatype Graph = Graph(inputs: seq<TypeRef>, outputs: seq<TypeRef>, providers: seq<Provider>,
                         invokes: seq<Invoke>, bindings: seq<Binding>)

  const EMPTY := Graph([], [], [], [], [])

  function Append(a: Graph, b: Graph): Graph {
    Graph(a.inputs + b.inputs, a.outputs + b.outputs, a.providers + b.providers,
          a.invokes + b.invokes, a.bindings + b.bindings)
  }

  /** All of g's lists are those of a followed by those of b. */
  predicate Follows(g: Graph, a: Graph, b: Graph) {
    && g.inputs == a.inputs + b.inputs && g.outputs == a.outputs + b.outputs
    && g.providers == a.providers + b.providers && g.invokes == a.invokes + b.invokes
    && g.bindings == a.bindings + b.bindings
  }

  /** The three lookup tables. */
  datatype Env = Env(providers: map<Key, Provider>, inputs: map<Key, TypeRef>, bindings: map<Key, Binding>)

  function ProviderTable(ps: seq<Provider>): map<Key, Provider> {
    if ps == [] then map[] else ProviderTable(ps[..|ps| - 1])[ps[|ps| - 1].result.key := ps[|ps| - 1]]
  }

  function InputTable(ts: seq<TypeRef>): map<Key, TypeRef> {
    if ts == [] then map[] else InputTable(ts[..|ts| - 1])[ts[|ts| - 1].key := ts[|ts| - 1]]
  }

  function BindingTable(bs: seq<Binding>): map<Key, Binding> {
    if bs == [] then map[] else BindingTable(bs[..|bs| - 1])[bs[|bs| - 1].iface.key := bs[|bs| - 1]]
  }

  function EnvOf(g: Graph): Env {
    Env(ProviderTable(g.providers), InputTable(g.inputs), BindingTable(g.bindings))
  }

  ghost predicate DistinctProviders(ps: seq<Provider>) {
    forall i, j :: 0 <= i < j < |ps| ==> ps[i].result.key != ps[j].result.key
  }

  ghost predicate DistinctInputs(ts: seq<TypeRef>) {
    forall i, j :: 0 <= i < j < |ts| ==> ts[i].key != ts[j].key
  }

  ghost predicate DistinctBindings(bs: seq<Binding>) {
    forall i, j :: 0 <= i < j < |bs| ==> bs[i].iface.key != bs[j].iface.key
  }

  ghost predicate DuplicateFree(g: Graph) {
    DistinctProviders(g.providers) && DistinctInputs(g.inputs) && DistinctBindings(g.bindings)
  }

  lemma {:induction false} ProviderTableHolds(ps: seq<Provider>)
    ensures forall k :: k in ProviderTable(ps) ==> ProviderTable(ps)[k] in ps && ProviderTable(ps)[k].result.key == k
    ensures forall i :: 0 <= i < |ps| ==> ps[i].result.key in ProviderTable(ps)
    ensures DistinctProviders(ps) ==> forall i :: 0 <= i < |ps| ==> ProviderTable(ps)[ps[i].result.key] == ps[i]
  {
    if ps != [] {
      var n := |ps| - 1;
      ProviderTableHolds(ps[..n]);
      forall i | 0 <= i < n
        ensures ps[i].result.key in ProviderTable(ps)
        ensures DistinctProviders(ps) ==> ProviderTable(ps)[ps[i].result.key] == ps[i]
      {
        assert ps[..n][i] == ps[i];
      }
    }
  }

  lemma {:induction false} InputTableHolds(ts: seq<TypeRef>)
    ensures InputTable(ts).Keys == KeysOfRefs(ts)
    ensures forall k :: k in InputTable(ts) ==> InputTable(ts)[k].key == k
  {
    if ts != [] {
      var n := |ts| - 1;
      InputTableHolds(ts[..n]);
      forall k
        ensures k in KeysOfRefs(ts) <==> k in KeysOfRefs(ts[..n]) || k == ts[n].key
      {
        if k in KeysOfRefs(ts[..n]) {
          var i :| 0 <= i < n && ts[..n][i].key == k;
          assert ts[i].key == k;
        }
      }
    }
  }

  /** An entry is one of the declarations. */
  lemma {:induction false} InputTableFrom(ts: seq<TypeRef>)
    ensures forall k :: k in InputTable(ts) ==> InputTable(ts)[k] in ts && InputTable(ts)[k].key == k
  {
    if ts != [] { InputTableFrom(ts[..|ts| - 1]); }
  }

  lemma {:induction false} BindingTableHolds(bs: seq<Binding>)
    ensures forall k :: k in BindingTable(bs) ==>
              exists i :: 0 <= i < |bs| && BindingTable(bs)[k] == bs[i] && bs[i].iface.key == k
    ensures forall i :: 0 <= i < |bs| ==> bs[i].iface.key in BindingTable(bs)
  {
    if bs != [] {
      var n := |bs| - 1;
      BindingTableHolds(bs[..n]);
      forall k | k in BindingTable(bs)
        ensures exists i :: 0 <= i < |bs| && BindingTable(bs)[k] == bs[i] && bs[i].iface.key == k
      {
        if k != bs[n].iface.key {
          var i :| 0 <= i < n && BindingTable(bs[..n])[k] == bs[..n][i] && bs[..n][i].iface.key == k;
          assert bs[i] == bs[..n][i];
        }
      }
      forall i | 0 <= i < n ensures bs[i].iface.key in BindingTable(bs) { assert bs[..n][i] == bs[i]; }
    }
  }

  /** The order in which providers are declared does not change the table. */
  lemma TableIgnoresOrder(ps: seq<Provider>, qs: seq<Provider>)
    requires DistinctProviders(ps) && DistinctProviders(qs)
    requires forall p :: p in ps <==> p in qs
    ensures ProviderTable(ps) == ProviderTable(qs)
  {
    ProviderTableHolds(ps);
    ProviderTableHolds(qs);
    var s, t := ProviderTable(ps), ProviderTable(qs);
    forall k
      ensures k in s <==> k in t
    {
      if k in s { assert s[k] in qs; }
      if k in t { assert t[k] in ps; }
    }
    forall k | k in s
      ensures s[k] == t[k]
    {
      assert s[k] in qs;
    }
  }

  // ---------------------------------------------------------------- where a type comes from

  datatype Target = FromInput | FromProvider(k: Key) | Missing

  /** An input stops the search, then a binding leads to its concrete type, then a provider. */
  function TargetOf(env: Env, k: Key): Target {
    if k in env.inputs then FromInput
    else if k in env.bindings then FromProvider(env.bindings[k].concrete.key)
    else if k in env.providers then FromProvider(k)
    else Missing
  }

  function SourceOf(env: Env, t: TypeRef): TypeRef {
    if t.key in env.inputs then env.inputs[t.key]
    else if t.key in env.bindings then env.bindings[t.key].concrete
    else t
  }

  ghost predicate WellKeyed(env: Env) {
    forall k :: k in env.providers ==> env.providers[k].result.key == k
  }

  ghost predicate Needs(env: Env, a: Key, t: Target) {
    a in env.providers &&
    exists j :: 0 <= j < |env.providers[a].params| && TargetOf(env, env.providers[a].params[j].key) == t
  }

  ghost predicate Edge(env: Env, a: Key, b: Key) {
    Needs(env, a, FromProvider(b))
  }

  ghost predicate IsPath(env: Env, p: seq<Key>) {
    |p| > 0 && forall i :: 0 <= i < |p| - 1 ==> Edge(env, p[i], p[i + 1])
  }

  ghost predicate Via(env: Env, p: seq<Key>, a: Key, b: Key) {
    IsPath(env, p) && p[0] == a && p[|p| - 1] == b
  }

  ghost predicate Reaches(env: Env, a: Key, b: Key) {
    exists p :: Via(env, p, a, b)
  }

  /** By at least one edge. */
  ghost predicate Precedes(env: Env, a: Key, b: Key) {
    exists p :: Via(env, p, a, b) && |p| > 1
  }

  ghost predicate OnCycle(env: Env, k: Key) {
    Precedes(env, k, k)
  }

  lemma ReachesItself(env: Env, a: Key)
    ensures Reaches(env, a, a)
  {
    assert Via(env, [a], a, a);
  }

  lemma ReachesFirst(env: Env, a: Key, b: Key, c: Key)
    requires Edge(env, a, b) && Reaches(env, b, c)
    ensures Reaches(env, a, c) && Precedes(env, a, c)
  {
    var p :| Via(env, p, b, c);
    assert Via(env, [a] + p, a, c);
  }

  lemma PrecedesNext(env: Env, a: Key, b: Key, c: Key)
    requires (a == b || Precedes(env, a, b)) && Edge(env, b, c)
    ensures Precedes(env, a, c)
  {
    if a == b {
      assert Via(env, [a, c], a, c);
    } else {
      var p :| Via(env, p, a, b) && |p| > 1;
      assert Via(env, p + [c], a, c);
    }
  }

  // ---------------------------------------------------------------- when a graph can be resolved

  /** Everything the provider k needs, transitively, is there, and nothing needs itself. */
  ghost predicate Buildable(env: Env, k: Key) {
    forall q :: Reaches(env, k, q) ==> q in env.providers && !Needs(env, q, Missing) && !OnCycle(env, q)
  }

  ghost predicate Resolvable(env: Env, roots: set<Key>) {
    forall t :: t in roots ==>
      !TargetOf(env, t).Missing? && (TargetOf(env, t).FromProvider? ==> Buildable(env, TargetOf(env, t).k))
  }

  /** A provider that some root needs. */
  ghost predicate Required(env: Env, roots: set<Key>, k: Key) {
    exists t :: t in roots && TargetOf(env, t).FromProvider? && Reaches(env, TargetOf(env, t).k, k)
  }

  /** What is asked for: the outputs and the parameters of the invokes. */
  function KeysOfRefs(ts: seq<TypeRef>): set<Key> {
    set i | 0 <= i < |ts| :: ts[i].key
  }

  function InvokeKeys(invokes: seq<Invoke>): set<Key> {
    set i, j | 0 <= i < |invokes| && 0 <= j < |invokes[i].params| :: invokes[i].params[j].key
  }

  function Roots(g: Graph): set<Key> {
    KeysOfRefs(g.outputs) + InvokeKeys(g.invokes)
  }
}
