/**
 resolveGraph: depth-first resolution with cycle detection.  ResolverState is the source's
 mutable state; its methods are proved against the relation of di_model.dfy, and the lemmas
 about `Topological` say what a produced order means.
 */
module DiResolver {
  import opened DiModel
  import opened DiNames

  datatype Error =
    | AmbiguousProvider(k: Key)
    | DuplicateInput(k: Key)
    | DuplicateBinding(k: Key)
    | NoSource(k: Key)
    | NoProvider(k: Key)
    | Cycle(k: Key)

  datatype Dep = Dep(requested: TypeRef, source: TypeRef)

  datatype Node = Node(ref: Provider, deps: seq<Dep>)

  datatype ResolvedInvoke = ResolvedInvoke(ref: Invoke, deps: seq<Dep>)

  datatype ResolvedOutput = ResolvedOutput(field: string, requested: TypeRef, source: TypeRef)

  datatype Resolved = Resolved(order: seq<Node>, invokes: seq<ResolvedInvoke>, outputs: seq<ResolvedOutput>)

  function KeyOf(n: Node): Key { n.ref.result.key }

  function KeysOf(order: seq<Node>): set<Key> {
    set i | 0 <= i < |order| :: KeyOf(order[i])
  }

  // ---------------------------------------------------------------- what a build order is

  /** The source is an input, or the result of one of the providers built so far. */
  ghost predicate Available(env: Env, built: set<Key>, k: Key) {
    match TargetOf(env, k)
    case FromInput => true
    case FromProvider(q) => q in built
    case Missing => false
  }

  ghost predicate DepsOk(env: Env, built: set<Key>, params: seq<TypeRef>, deps: seq<Dep>) {
    && |deps| == |params|
    && forall j :: 0 <= j < |params| ==>
        deps[j] == Dep(params[j], SourceOf(env, params[j])) && Available(env, built, params[j].key)
  }

  ghost predicate NodeOk(env: Env, built: set<Key>, n: Node) {
    && KeyOf(n) in env.providers && n.ref == env.providers[KeyOf(n)] && KeyOf(n) !in built
    && DepsOk(env, built, n.ref.params, n.deps)
  }

  /** No provider twice, and every dependency an input or the result of a strictly earlier entry. */
  ghost predicate Topological(env: Env, order: seq<Node>) {
    forall i :: 0 <= i < |order| ==> NodeOk(env, KeysOf(order[..i]), order[i])
  }

  lemma KeysOfMore(order: seq<Node>, n: Node)
    ensures KeysOf(order + [n]) == KeysOf(order) + {KeyOf(n)}
  {
    var more := order + [n];
    forall k
      ensures k in KeysOf(more) <==> k in KeysOf(order) || k == KeyOf(n)
    {
      if k == KeyOf(n) { assert more[|order|] == n; }
      if k in KeysOf(order) {
        var i :| 0 <= i < |order| && KeyOf(order[i]) == k;
        assert more[i] == order[i];
      }
    }
  }

  lemma TopologicalMore(env: Env, order: seq<Node>, n: Node)
    requires Topological(env, order) && NodeOk(env, KeysOf(order), n)
    ensures Topological(env, order + [n])
  {
    var more := order + [n];
    forall i | 0 <= i < |more|
      ensures NodeOk(env, KeysOf(more[..i]), more[i])
    {
      assert more[..i] == if i < |order| then order[..i] else order;
    }
  }

  lemma DepsOneMore(env: Env, built: set<Key>, more: set<Key>, params: seq<TypeRef>, deps: seq<Dep>, j: nat)
    requires j < |params| && |deps| == j + 1 && built <= more
    requires DepsOk(env, built, params[..j], deps[..j])
    requires deps[j] == Dep(params[j], SourceOf(env, params[j])) && Available(env, more, params[j].key)
    ensures DepsOk(env, more, params[..j + 1], deps)
  {
    forall i | 0 <= i < j
      ensures deps[i] == Dep(params[i], SourceOf(env, params[i])) && Available(env, more, params[i].key)
    {
      assert params[..j][i] == params[i] && deps[..j][i] == deps[i];
    }
  }

  /** Along an edge the position in the order strictly falls. */
  lemma EdgeDescends(env: Env, order: seq<Node>, i: nat, b: Key) returns (j: nat)
    requires Topological(env, order) && i < |order| && Edge(env, KeyOf(order[i]), b)
    ensures j < i && KeyOf(order[j]) == b
  {
    assert NodeOk(env, KeysOf(order[..i]), order[i]);
    assert b in KeysOf(order[..i]);
    j :| 0 <= j < i && KeyOf(order[..i][j]) == b;
  }

  lemma {:induction false} PathDescends(env: Env, order: seq<Node>, i: nat, p: seq<Key>) returns (j: nat)
    requires Topological(env, order) && i < |order| && IsPath(env, p) && p[0] == KeyOf(order[i])
    ensures j <= i && KeyOf(order[j]) == p[|p| - 1] && (|p| > 1 ==> j < i)
    decreases |p|
  {
    if |p| == 1 {
      j := i;
    } else {
      assert Edge(env, p[0], p[1]);
      var k := EdgeDescends(env, order, i, p[1]);
      var rest := p[1..];
      forall m | 0 <= m < |rest| - 1
        ensures Edge(env, rest[m], rest[m + 1])
      {
        assert Edge(env, p[m + 1], p[m + 2]);
      }
      j := PathDescends(env, order, k, rest);
    }
  }

  lemma SamePosition(env: Env, order: seq<Node>, i: nat, j: nat)
    requires Topological(env, order) && i <= j < |order| && KeyOf(order[i]) == KeyOf(order[j])
    ensures i == j
  {
    if i < j {
      assert false;
    }
  }

  /** An order with this property certifies each of its entries: all it needs is there, without a cycle. */
  lemma OrderCertifies(env: Env, order: seq<Node>, k: Key)
    requires Topological(env, order) && k in KeysOf(order)
    ensures Buildable(env, k)
    ensures forall q :: Reaches(env, k, q) ==> q in KeysOf(order)
  {
    var i :| 0 <= i < |order| && KeyOf(order[i]) == k;
    forall q | Reaches(env, k, q)
      ensures q in KeysOf(order) && q in env.providers && !Needs(env, q, Missing) && !OnCycle(env, q)
    {
      var p :| Via(env, p, k, q);
      var j := PathDescends(env, order, i, p);
      assert NodeOk(env, KeysOf(order[..j]), order[j]);
      if OnCycle(env, q) {
        var c :| Via(env, c, q, q) && |c| > 1;
        var m := PathDescends(env, order, j, c);
        SamePosition(env, order, m, j);
        assert false;
      }
    }
  }

  // ---------------------------------------------------------------- what an error means

  ghost predicate BadFrom(env: Env, k: Key, e: Error) {
    match e
    case NoProvider(q) => Reaches(env, k, q) && q !in env.providers
    case NoSource(q) => TargetOf(env, q).Missing? && exists p :: Reaches(env, k, p) && Asks(env, p, q)
    case Cycle(q) => Reaches(env, k, q) && OnCycle(env, q)
    case _ => false
  }

  /** The provider k has a parameter of type q. */
  ghost predicate Asks(env: Env, k: Key, q: Key) {
    k in env.providers && exists j :: 0 <= j < |env.providers[k].params| && env.providers[k].params[j].key == q
  }

  ghost predicate BadDep(env: Env, t: Key, e: Error) {
    (TargetOf(env, t).Missing? && e == NoSource(t)) ||
    (TargetOf(env, t).FromProvider? && BadFrom(env, TargetOf(env, t).k, e))
  }

  lemma BadParam(env: Env, k: Key, j: nat, e: Error)
    requires k in env.providers && j < |env.providers[k].params| && BadDep(env, env.providers[k].params[j].key, e)
    ensures BadFrom(env, k, e)
  {
    var t := env.providers[k].params[j].key;
    if TargetOf(env, t).Missing? {
      ReachesItself(env, k);
      assert Asks(env, k, t);
    } else {
      var b := TargetOf(env, t).k;
      assert Edge(env, k, b);
      match e
      case NoProvider(q) => ReachesFirst(env, k, b, q);
      case Cycle(q) => ReachesFirst(env, k, b, q);
      case NoSource(q) =>
        var p :| Reaches(env, b, p) && Asks(env, p, q);
        ReachesFirst(env, k, b, p);
    }
  }

  lemma BadIsUnbuildable(env: Env, t: Key, e: Error)
    requires BadDep(env, t, e)
    ensures TargetOf(env, t).Missing? || !Buildable(env, TargetOf(env, t).k)
  {
    if TargetOf(env, t).FromProvider? && e.NoSource? {
      var p :| Reaches(env, TargetOf(env, t).k, p) && Asks(env, p, e.k);
      assert Needs(env, p, Missing);
    }
  }

  // ---------------------------------------------------------------- the resolver

  ghost predicate Inv(env: Env, visiting: set<Key>, resolved: map<Key, Node>, order: seq<Node>) {
    && WellKeyed(env) && Topological(env, order)
    && resolved.Keys == KeysOf(order)
    && visiting !! resolved.Keys
    && visiting <= env.providers.Keys
  }

  /** What a successful call added is reachable from where it started. */
  ghost predicate Grown(env: Env, k: Key, before: seq<Node>, after: seq<Node>) {
    && before <= after
    && forall i :: |before| <= i < |after| ==> Reaches(env, k, KeyOf(after[i]))
  }

  lemma Shrinks(all: set<Key>, outer: set<Key>, k: Key)
    requires k in all && k !in outer
    ensures |all - (outer + {k})| < |all - outer|
  {
    assert all - outer == (all - (outer + {k})) + {k};
  }

  /** Whatever precedes k precedes the providers that k needs. */
  lemma ParamPrecedes(env: Env, outer: set<Key>, k: Key, j: nat)
    requires k in env.providers && j < |env.providers[k].params|
    requires forall v :: v in outer ==> Precedes(env, v, k)
    ensures var t := TargetOf(env, env.providers[k].params[j].key);
      t.FromProvider? ==> forall v :: v in outer + {k} ==> Precedes(env, v, t.k)
  {
    var t := TargetOf(env, env.providers[k].params[j].key);
    if t.FromProvider? {
      forall v | v in outer + {k}
        ensures Precedes(env, v, t.k)
      {
        PrecedesNext(env, v, k, t.k);
      }
    }
  }

  lemma GrownBy(env: Env, k: Key, j: nat, first: seq<Node>, before: seq<Node>, after: seq<Node>)
    requires k in env.providers && j < |env.providers[k].params| && Grown(env, k, first, before)
    requires var t := TargetOf(env, env.providers[k].params[j].key);
      if t.FromProvider? then Grown(env, t.k, before, after) else after == before
    ensures Grown(env, k, first, after)
  {
    var t := TargetOf(env, env.providers[k].params[j].key);
    if t.FromProvider? {
      forall i | |first| <= i < |after|
        ensures Reaches(env, k, KeyOf(after[i]))
      {
        if i < |before| {
          assert after[i] == before[i];
        } else {
          ReachesFirst(env, k, t.k, KeyOf(after[i]));
        }
      }
    }
  }

  lemma KeysOfLonger(a: seq<Node>, b: seq<Node>)
    requires a <= b
    ensures KeysOf(a) <= KeysOf(b)
  {
    forall k | k in KeysOf(a)
      ensures k in KeysOf(b)
    {
      var i :| 0 <= i < |a| && KeyOf(a[i]) == k;
      assert b[i] == a[i];
    }
  }

  lemma NodeAdded(env: Env, outer: set<Key>, k: Key, resolved: map<Key, Node>, first: seq<Node>, order: seq<Node>,
                  node: Node)
    requires Inv(env, outer + {k}, resolved, order) && k !in outer && Grown(env, k, first, order)
    requires k in env.providers && node.ref == env.providers[k]
    requires DepsOk(env, KeysOf(order), node.ref.params, node.deps)
    ensures Inv(env, outer, resolved[k := node], order + [node])
    ensures k in KeysOf(order + [node]) && Grown(env, k, first, order + [node])
  {
    assert NodeOk(env, KeysOf(order), node);
    KeysOfMore(order, node);
    TopologicalMore(env, order, node);
    ReachesItself(env, k);
  }

  class ResolverState {
    const env: Env
    var visiting: set<Key>
    var resolved: map<Key, Node>
    var providerOrder: seq<Node>
    var fieldNames: map<string, nat>
    const baseFieldNameCounts: map<string, nat>

    constructor (env: Env, counts: map<string, nat>)
      requires WellKeyed(env)
      ensures this.env == env && baseFieldNameCounts == counts && Valid()
      ensures visiting == {} && providerOrder == [] && fieldNames == map[]
    {
      this.env, baseFieldNameCounts := env, counts;
      visiting, resolved, providerOrder, fieldNames := {}, map[], [], map[];
    }

    ghost predicate Valid()
      reads this`visiting, this`resolved, this`providerOrder
    {
      Inv(env, visiting, resolved, providerOrder)
    }

    method ResolveDependency(requested: TypeRef) returns (res: Result<TypeRef, Error>)
      requires Valid()
      requires forall v :: v in visiting && TargetOf(env, requested.key).FromProvider? ==>
                 Precedes(env, v, TargetOf(env, requested.key).k)
      modifies this`visiting, this`resolved, this`providerOrder
      ensures res.Ok? ==> Valid() && visiting == old(visiting) && res.value == SourceOf(env, requested)
      ensures var k := requested.key;
        if k in env.inputs then res == Ok(env.inputs[k]) && providerOrder == old(providerOrder)
        else if k in env.bindings then
          res.Ok? ==> res.value == env.bindings[k].concrete && res.value.key in KeysOf(providerOrder)
        else if k in env.providers then res.Ok? ==> res.value == requested && k in KeysOf(providerOrder)
        else res == Err(NoSource(k))
      ensures res.Ok? ==> Available(env, KeysOf(providerOrder), requested.key)
      ensures res.Ok? ==> old(providerOrder) <= providerOrder
      ensures res.Ok? && TargetOf(env, requested.key).FromProvider? ==>
        Grown(env, TargetOf(env, requested.key).k, old(providerOrder), providerOrder)
      ensures res.Ok? && !TargetOf(env, requested.key).FromProvider? ==> providerOrder == old(providerOrder)
      ensures res.Err? ==> BadDep(env, requested.key, res.error)
      decreases |env.providers.Keys - visiting|, 1
    {
      if requested.key in env.inputs {
        return Ok(env.inputs[requested.key]);
      }
      if requested.key in env.bindings {
        var concrete := env.bindings[requested.key].concrete;
        var r := ResolveProvider(concrete);
        if r.Err? {
          return Err(r.error);
        }
        return Ok(concrete);
      }
      if requested.key in env.providers {
        var r := ResolveProvider(requested);
        if r.Err? {
          return Err(r.error);
        }
        return Ok(requested);
      }
      return Err(NoSource(requested.key));
    }

    /** The loop over the parameters of provider k. */
    method ResolveParams(k: Key, ghost outer: set<Key>) returns (res: Result<seq<Dep>, Error>)
      requires Valid() && k in env.providers && k !in outer && visiting == outer + {k}
      requires forall v :: v in outer ==> Precedes(env, v, k)
      modifies this`visiting, this`resolved, this`providerOrder
      ensures res.Ok? ==> Valid() && visiting == old(visiting)
      ensures res.Ok? ==> DepsOk(env, KeysOf(providerOrder), env.providers[k].params, res.value)
      ensures res.Ok? ==> Grown(env, k, old(providerOrder), providerOrder)
      ensures res.Err? ==> BadFrom(env, k, res.error)
      decreases |env.providers.Keys - visiting|, 2
    {
      var params := env.providers[k].params;
      var deps: seq<Dep> := [];
      for j := 0 to |params|
        invariant Valid() && visiting == outer + {k}
        invariant DepsOk(env, KeysOf(providerOrder), params[..j], deps)
        invariant Grown(env, k, old(providerOrder), providerOrder)
      {
        ghost var before := providerOrder;
        ParamPrecedes(env, outer, k, j);
        var r := ResolveDependency(params[j]);
        if r.Err? {
          BadParam(env, k, j, r.error);
          return Err(r.error);
        }
        GrownBy(env, k, j, old(providerOrder), before, providerOrder);
        KeysOfLonger(before, providerOrder);
        deps := deps + [Dep(params[j], r.value)];
        DepsOneMore(env, KeysOf(before), KeysOf(providerOrder), params, deps, j);
      }
      assert params[..|params|] == params;
      return Ok(deps);
    }

    method ResolveProvider(target: TypeRef) returns (res: Result<(), Error>)
      requires Valid()
      requires forall v :: v in visiting ==> Precedes(env, v, target.key)
      modifies this`visiting, this`resolved, this`providerOrder
      ensures res.Ok? ==> Valid() && visiting == old(visiting) && target.key in KeysOf(providerOrder)
      ensures res.Ok? ==> Grown(env, target.key, old(providerOrder), providerOrder)
      ensures res.Err? ==> BadFrom(env, target.key, res.error)
      decreases |env.providers.Keys - visiting|, 0
    {
      var k := target.key;
      ReachesItself(env, k);
      if k in resolved {
        return Ok(());
      }
      if k in visiting {
        return Err(Cycle(k));
      }
      if k !in env.providers {
        return Err(NoProvider(k));
      }
      var provider := env.providers[k];
      ghost var outer := visiting;
      visiting := visiting + {k};
      Shrinks(env.providers.Keys, outer, k);
      var r := ResolveParams(k, outer);
      if r.Err? {
        return Err(r.error);
      }
      visiting := visiting - {k};
      var node := Node(provider, r.value);
      NodeAdded(env, outer, k, resolved, old(providerOrder), providerOrder, node);
      resolved := resolved[k := node];
      providerOrder := providerOrder + [node];
      return Ok(());
    }

    /** The parameters of an invoke, resolved from the roots. */
    method ResolveRefs(refs: seq<TypeRef>, ghost roots: set<Key>) returns (res: Result<seq<Dep>, Error>)
      requires Valid() && visiting == {} && KeysOfRefs(refs) <= roots && AllRequired(env, roots, providerOrder)
      modifies this`visiting, this`resolved, this`providerOrder
      ensures res.Ok? ==> Valid() && visiting == {} && old(providerOrder) <= providerOrder
      ensures res.Ok? ==> AllRequired(env, roots, providerOrder) && DepsOk(env, KeysOf(providerOrder), refs, res.value)
      ensures res.Err? ==> exists t :: t in roots && BadDep(env, t, res.error)
    {
      var deps: seq<Dep> := [];
      for j := 0 to |refs|
        invariant Valid() && visiting == {} && old(providerOrder) <= providerOrder
        invariant AllRequired(env, roots, providerOrder) && DepsOk(env, KeysOf(providerOrder), refs[..j], deps)
      {
        ghost var before := providerOrder;
        assert refs[j].key in KeysOfRefs(refs);
        var r := ResolveDependency(refs[j]);
        if r.Err? {
          return Err(r.error);
        }
        RequiredGrows(env, roots, refs[j].key, before, providerOrder);
        KeysOfLonger(before, providerOrder);
        deps := deps + [Dep(refs[j], r.value)];
        DepsOneMore(env, KeysOf(before), KeysOf(providerOrder), refs, deps, j);
      }
      assert refs[..|refs|] == refs;
      return Ok(deps);
    }

    /** The counters say how often each stem was used before output i. */
    ghost predicate Counted(all: seq<TypeRef>, i: nat)
      requires i <= |all|
      reads this`fieldNames
    {
      && (forall b :: Lookup(baseFieldNameCounts, b) == BaseCount(all, |all|, b))
      && (forall s :: Lookup(fieldNames, s) == StemCount(all, i, s))
    }

    method MakeFieldName(output: TypeRef, ghost all: seq<TypeRef>, ghost i: nat) returns (name: string)
      requires i < |all| && output == all[i] && Counted(all, i)
      modifies this`fieldNames
      ensures name == FieldName(all, i) && Counted(all, i + 1)
      ensures all[i].custom == "" && all[i].qualifier != "" && SharesBase(all, i) ==>
                all[i].qualifier + (if all[i].base == "" then "Value" else all[i].base) <= name
    {
      if output.custom != "" {
        return output.custom;
      }
      name := BaseField(output);
      if Lookup(baseFieldNameCounts, name) > 1 {
        if output.qualifier != "" {
          name := output.qualifier + name;
        }
      }
      assert name == FieldStem(all, output);
      var count := Lookup(fieldNames, name);
      fieldNames := fieldNames[name := count + 1];
      if count != 0 {
        name := name + Dec(count + 1);
      }
      ghost var stem := FieldStem(all, output);
      forall s
        ensures Lookup(fieldNames, s) == StemCount(all, i + 1, s)
      {
        assert StemCount(all, i + 1, s) == StemCount(all, i, s) + (if s == stem then 1 else 0);
      }
      FieldNameStarts(all, i);
    }
  }

  function Lookup(m: map<string, nat>, k: string): nat {
    if k in m then m[k] else 0
  }

  // ---------------------------------------------------------------- resolveGraph

  ghost predicate AllRequired(env: Env, roots: set<Key>, order: seq<Node>) {
    forall i :: 0 <= i < |order| ==> Required(env, roots, KeyOf(order[i]))
  }

  lemma RequiredGrows(env: Env, roots: set<Key>, t: Key, before: seq<Node>, after: seq<Node>)
    requires t in roots && AllRequired(env, roots, before)
    requires if TargetOf(env, t).FromProvider? then Grown(env, TargetOf(env, t).k, before, after) else after == before
    ensures AllRequired(env, roots, after)
  {
    forall i | 0 <= i < |after|
      ensures Required(env, roots, KeyOf(after[i]))
    {
      if i < |before| { assert after[i] == before[i]; }
    }
  }

  method BuildProviderTable(ps: seq<Provider>) returns (r: Result<map<Key, Provider>, Key>)
    ensures r.Ok? <==> DistinctProviders(ps)
    ensures r.Ok? ==> r.value == ProviderTable(ps)
    ensures r.Err? ==> exists i, j :: 0 <= i < j < |ps| && ps[i].result.key == r.error == ps[j].result.key
  {
    var table: map<Key, Provider> := map[];
    for i := 0 to |ps|
      invariant table == ProviderTable(ps[..i]) && DistinctProviders(ps[..i])
      invariant forall k :: k in table <==> exists j :: 0 <= j < i && ps[j].result.key == k
    {
      var k := ps[i].result.key;
      if k in table {
        return Err(k);
      }
      assert ps[..i + 1][..i] == ps[..i];
      table := table[k := ps[i]];
    }
    assert ps[..|ps|] == ps;
    return Ok(table);
  }

  method BuildInputTable(ts: seq<TypeRef>) returns (r: Result<map<Key, TypeRef>, Key>)
    ensures r.Ok? <==> DistinctInputs(ts)
    ensures r.Ok? ==> r.value == InputTable(ts)
    ensures r.Err? ==> exists i, j :: 0 <= i < j < |ts| && ts[i].key == r.error == ts[j].key
  {
    var table: map<Key, TypeRef> := map[];
    for i := 0 to |ts|
      invariant table == InputTable(ts[..i]) && DistinctInputs(ts[..i])
      invariant forall k :: k in table <==> exists j :: 0 <= j < i && ts[j].key == k
    {
      var k := ts[i].key;
      if k in table {
        return Err(k);
      }
      assert ts[..i + 1][..i] == ts[..i];
      table := table[k := ts[i]];
    }
    assert ts[..|ts|] == ts;
    return Ok(table);
  }

  method BuildBindingTable(bs: seq<Binding>) returns (r: Result<map<Key, Binding>, Key>)
    ensures r.Ok? <==> DistinctBindings(bs)
    ensures r.Ok? ==> r.value == BindingTable(bs)
    ensures r.Err? ==> exists i, j :: 0 <= i < j < |bs| && bs[i].iface.key == r.error == bs[j].iface.key
  {
    var table: map<Key, Binding> := map[];
    for i := 0 to |bs|
      invariant table == BindingTable(bs[..i]) && DistinctBindings(bs[..i])
      invariant forall k :: k in table <==> exists j :: 0 <= j < i && bs[j].iface.key == k
    {
      var k := bs[i].iface.key;
      if k in table {
        return Err(k);
      }
      assert bs[..i + 1][..i] == bs[..i];
      table := table[k := bs[i]];
    }
    assert bs[..|bs|] == bs;
    return Ok(table);
  }

  method BuildTables(g: Graph) returns (r: Result<Env, Error>)
    ensures r.Ok? <==> DuplicateFree(g)
    ensures r.Ok? ==> r.value == EnvOf(g)
    ensures r.Err? ==> Repeated(g, r.error)
    ensures !DistinctProviders(g.providers) ==> r.Err? && r.error.AmbiguousProvider?
  {
    var providers := BuildProviderTable(g.providers);
    if providers.Err? {
      return Err(AmbiguousProvider(providers.error));
    }
    var inputs := BuildInputTable(g.inputs);
    if inputs.Err? {
      return Err(DuplicateInput(inputs.error));
    }
    var bindings := BuildBindingTable(g.bindings);
    if bindings.Err? {
      return Err(DuplicateBinding(bindings.error));
    }
    return Ok(Env(providers.value, inputs.value, bindings.value));
  }

  /** The key of the error occurs twice. */
  ghost predicate Repeated(g: Graph, e: Error) {
    match e
    case AmbiguousProvider(k) =>
      exists i, j :: 0 <= i < j < |g.providers| && g.providers[i].result.key == k == g.providers[j].result.key
    case DuplicateInput(k) => exists i, j :: 0 <= i < j < |g.inputs| && g.inputs[i].key == k == g.inputs[j].key
    case DuplicateBinding(k) =>
      exists i, j :: 0 <= i < j < |g.bindings| && g.bindings[i].iface.key == k == g.bindings[j].iface.key
    case _ => false
  }

  method CountBaseNames(outputs: seq<TypeRef>) returns (counts: map<string, nat>)
    ensures forall b :: Lookup(counts, b) == BaseCount(outputs, |outputs|, b)
  {
    counts := map[];
    for i := 0 to |outputs|
      invariant forall b :: Lookup(counts, b) == BaseCount(outputs, i, b)
    {
      var b := BaseField(outputs[i]);
      counts := counts[b := Lookup(counts, b) + 1];
    }
  }

  ghost predicate OutputOk(env: Env, built: set<Key>, outputs: seq<TypeRef>, i: nat, o: ResolvedOutput)
    requires i < |outputs|
  {
    && o == ResolvedOutput(FieldName(outputs, i), outputs[i], SourceOf(env, outputs[i]))
    && Available(env, built, outputs[i].key)
  }

  ghost predicate OutputsOk(env: Env, built: set<Key>, outputs: seq<TypeRef>, n: nat, r: seq<ResolvedOutput>)
    requires n <= |outputs|
  {
    |r| == n && forall i :: 0 <= i < n ==> OutputOk(env, built, outputs, i, r[i])
  }

  lemma OutputsMore(env: Env, built: set<Key>, more: set<Key>, outputs: seq<TypeRef>, n: nat, r: seq<ResolvedOutput>,
                    o: ResolvedOutput)
    requires n < |outputs| && OutputsOk(env, built, outputs, n, r) && built <= more
    requires OutputOk(env, more, outputs, n, o)
    ensures OutputsOk(env, more, outputs, n + 1, r + [o])
  {
    forall i | 0 <= i < n
      ensures OutputOk(env, more, outputs, i, r[i])
    {
      assert OutputOk(env, built, outputs, i, r[i]);
    }
  }

  ghost predicate InvokesOk(env: Env, built: set<Key>, invokes: seq<Invoke>, r: seq<ResolvedInvoke>) {
    |r| == |invokes| && forall i :: 0 <= i < |r| ==>
      r[i].ref == invokes[i] && DepsOk(env, built, invokes[i].params, r[i].deps)
  }

  /** The build order holds exactly the required providers, and everything asked for has its source. */
  ghost predicate ResolvedOk(g: Graph, env: Env, r: Resolved) {
    && Topological(env, r.order)
    && (forall k :: k in KeysOf(r.order) <==> Required(env, Roots(g), k))
    && OutputsOk(env, KeysOf(r.order), g.outputs, |g.outputs|, r.outputs)
    && InvokesOk(env, KeysOf(r.order), g.invokes, r.invokes)
  }

  /** Why a graph was refused: a repeated key, or a defect that some root reaches. */
  ghost predicate Blamed(g: Graph, e: Error) {
    Repeated(g, e) || (DuplicateFree(g) && exists t :: t in Roots(g) && BadDep(EnvOf(g), t, e))
  }

  lemma BlamedIsUnresolvable(g: Graph, t: Key, e: Error)
    requires t in Roots(g) && BadDep(EnvOf(g), t, e)
    ensures !Resolvable(EnvOf(g), Roots(g))
  {
    BadIsUnbuildable(EnvOf(g), t, e);
  }

  lemma ResolvedIsResolvable(g: Graph, env: Env, r: Resolved)
    requires Topological(env, r.order) && AllRequired(env, Roots(g), r.order)
    requires OutputsOk(env, KeysOf(r.order), g.outputs, |g.outputs|, r.outputs)
    requires InvokesOk(env, KeysOf(r.order), g.invokes, r.invokes)
    ensures Resolvable(env, Roots(g)) && ResolvedOk(g, env, r)
  {
    forall t | t in Roots(g)
      ensures Available(env, KeysOf(r.order), t)
    {
      RootAvailable(g, env, r, t);
    }
    forall k | k in KeysOf(r.order)
      ensures Required(env, Roots(g), k) && Buildable(env, k)
      ensures forall q :: Reaches(env, k, q) ==> q in KeysOf(r.order)
    {
      OrderCertifies(env, r.order, k);
    }
  }

  lemma RootAvailable(g: Graph, env: Env, r: Resolved, t: Key)
    requires t in Roots(g)
    requires OutputsOk(env, KeysOf(r.order), g.outputs, |g.outputs|, r.outputs)
    requires InvokesOk(env, KeysOf(r.order), g.invokes, r.invokes)
    ensures Available(env, KeysOf(r.order), t)
  {
    if t in KeysOfRefs(g.outputs) {
      var i :| 0 <= i < |g.outputs| && g.outputs[i].key == t;
      assert OutputOk(env, KeysOf(r.order), g.outputs, i, r.outputs[i]);
    } else {
      var i, j :| 0 <= i < |g.invokes| && 0 <= j < |g.invokes[i].params| && g.invokes[i].params[j].key == t;
      assert DepsOk(env, KeysOf(r.order), g.invokes[i].params, r.invokes[i].deps);
    }
  }

  lemma InvokeKeysIn(g: Graph, i: nat)
    requires i < |g.invokes|
    ensures KeysOfRefs(g.invokes[i].params) <= Roots(g)
  {
  }

  ghost predicate Ready(state: ResolverState, env: Env, roots: set<Key>)
    reads state
  {
    state.env == env && state.Valid() && state.visiting == {} && AllRequired(env, roots, state.providerOrder)
  }

  method ResolveOutput(state: ResolverState, g: Graph, i: nat) returns (r: Result<ResolvedOutput, Error>)
    requires i < |g.outputs| && Ready(state, EnvOf(g), Roots(g)) && state.Counted(g.outputs, i)
    modifies state
    ensures r.Ok? ==> Ready(state, EnvOf(g), Roots(g)) && state.Counted(g.outputs, i + 1)
    ensures r.Ok? ==> KeysOf(old(state.providerOrder)) <= KeysOf(state.providerOrder)
    ensures r.Ok? ==> OutputOk(EnvOf(g), KeysOf(state.providerOrder), g.outputs, i, r.value)
    ensures r.Err? ==> exists t :: t in Roots(g) && BadDep(EnvOf(g), t, r.error)
  {
    ghost var before := state.providerOrder;
    assert g.outputs[i].key in KeysOfRefs(g.outputs);
    var source := state.ResolveDependency(g.outputs[i]);
    if source.Err? {
      return Err(source.error);
    }
    RequiredGrows(EnvOf(g), Roots(g), g.outputs[i].key, before, state.providerOrder);
    KeysOfLonger(before, state.providerOrder);
    var name := state.MakeFieldName(g.outputs[i], g.outputs, i);
    r := Ok(ResolvedOutput(name, g.outputs[i], source.value));
  }

  method ResolveOutputs(state: ResolverState, g: Graph) returns (r: Result<seq<ResolvedOutput>, Error>)
    requires Ready(state, EnvOf(g), Roots(g)) && state.Counted(g.outputs, 0)
    modifies state
    ensures r.Ok? ==> Ready(state, EnvOf(g), Roots(g))
    ensures r.Ok? ==> OutputsOk(EnvOf(g), KeysOf(state.providerOrder), g.outputs, |g.outputs|, r.value)
    ensures r.Err? ==> exists t :: t in Roots(g) && BadDep(EnvOf(g), t, r.error)
  {
    var outputs: seq<ResolvedOutput> := [];
    for i := 0 to |g.outputs|
      invariant Ready(state, EnvOf(g), Roots(g)) && state.Counted(g.outputs, i)
      invariant OutputsOk(EnvOf(g), KeysOf(state.providerOrder), g.outputs, i, outputs)
    {
      ghost var before := KeysOf(state.providerOrder);
      var output := ResolveOutput(state, g, i);
      if output.Err? {
        return Err(output.error);
      }
      OutputsMore(EnvOf(g), before, KeysOf(state.providerOrder), g.outputs, i, outputs, output.value);
      outputs := outputs + [output.value];
    }
    return Ok(outputs);
  }

  method ResolveInvokes(state: ResolverState, g: Graph) returns (r: Result<seq<ResolvedInvoke>, Error>)
    requires Ready(state, EnvOf(g), Roots(g))
    modifies state
    ensures r.Ok? ==> Ready(state, EnvOf(g), Roots(g)) && old(state.providerOrder) <= state.providerOrder
    ensures r.Ok? ==> InvokesOk(EnvOf(g), KeysOf(state.providerOrder), g.invokes, r.value)
    ensures r.Err? ==> exists t :: t in Roots(g) && BadDep(EnvOf(g), t, r.error)
  {
    ghost var env, roots := EnvOf(g), Roots(g);
    var invokes: seq<ResolvedInvoke> := [];
    for i := 0 to |g.invokes|
      invariant Ready(state, env, roots) && old(state.providerOrder) <= state.providerOrder
      invariant InvokesOk(env, KeysOf(state.providerOrder), g.invokes[..i], invokes)
    {
      ghost var before := state.providerOrder;
      InvokeKeysIn(g, i);
      var deps := state.ResolveRefs(g.invokes[i].params, roots);
      if deps.Err? {
        return Err(deps.error);
      }
      KeysOfLonger(before, state.providerOrder);
      assert g.invokes[..i + 1] == g.invokes[..i] + [g.invokes[i]];
      invokes := invokes + [ResolvedInvoke(g.invokes[i], deps.value)];
    }
    assert g.invokes[..|g.invokes|] == g.invokes;
    return Ok(invokes);
  }

  // ---------------------------------------------------------------- what resolution means for the declarations

  ghost predicate HasInput(g: Graph, k: Key) {
    exists i :: 0 <= i < |g.inputs| && g.inputs[i].key == k
  }

  ghost predicate HasBinding(g: Graph, k: Key) {
    exists i :: 0 <= i < |g.bindings| && g.bindings[i].iface.key == k
  }

  /** The declared input of the type; else the concrete type bound to it; else the type itself. */
  ghost predicate SourcedBy(g: Graph, t: TypeRef, source: TypeRef) {
    if HasInput(g, t.key) then source in g.inputs && source.key == t.key
    else if HasBinding(g, t.key) then
      exists i :: 0 <= i < |g.bindings| && g.bindings[i].iface.key == t.key && g.bindings[i].concrete == source
    else source == t
  }

  /** What is no input is the result of a provider built before. */
  ghost predicate BuiltBefore(g: Graph, t: TypeRef, source: TypeRef, built: seq<Node>) {
    HasInput(g, t.key) || exists i :: 0 <= i < |built| && built[i].ref.result.key == source.key
  }

  /** Each parameter, in order, has its source. */
  ghost predicate Wired(g: Graph, params: seq<TypeRef>, deps: seq<Dep>, built: seq<Node>) {
    && |deps| == |params|
    && forall j :: 0 <= j < |params| ==>
         deps[j].requested == params[j] && SourcedBy(g, params[j], deps[j].source)
         && BuiltBefore(g, params[j], deps[j].source, built)
  }

  ghost predicate OrderWired(g: Graph, order: seq<Node>) {
    && (forall i :: 0 <= i < |order| ==>
          order[i].ref in g.providers && Wired(g, order[i].ref.params, order[i].deps, order[..i]))
    && forall i, j :: 0 <= i < j < |order| ==> order[i].ref.result.key != order[j].ref.result.key
  }

  /** The resolved graph, said of the declarations alone. */
  ghost predicate GraphWired(g: Graph, r: Resolved) {
    && OrderWired(g, r.order)
    && |r.outputs| == |g.outputs|
    && (forall i :: 0 <= i < |g.outputs| ==>
          && r.outputs[i].requested == g.outputs[i] && r.outputs[i].field == FieldName(g.outputs, i)
          && SourcedBy(g, g.outputs[i], r.outputs[i].source)
          && BuiltBefore(g, g.outputs[i], r.outputs[i].source, r.order))
    && |r.invokes| == |g.invokes|
    && (forall i :: 0 <= i < |g.invokes| ==>
          r.invokes[i].ref == g.invokes[i] && Wired(g, g.invokes[i].params, r.invokes[i].deps, r.order))
  }

  lemma SourceIsDeclared(g: Graph, t: TypeRef, built: seq<Node>)
    requires DuplicateFree(g) && Available(EnvOf(g), KeysOf(built), t.key)
    ensures SourcedBy(g, t, SourceOf(EnvOf(g), t)) && BuiltBefore(g, t, SourceOf(EnvOf(g), t), built)
  {
    InputTableHolds(g.inputs);
    InputTableFrom(g.inputs);
    BindingTableHolds(g.bindings);
    assert HasInput(g, t.key) <==> t.key in EnvOf(g).inputs;
    assert HasBinding(g, t.key) <==> t.key in EnvOf(g).bindings;
    if !HasInput(g, t.key) {
      var q := TargetOf(EnvOf(g), t.key).k;
      assert q in KeysOf(built) && SourceOf(EnvOf(g), t).key == q;
    }
  }

  lemma DepsAreWired(g: Graph, params: seq<TypeRef>, deps: seq<Dep>, built: seq<Node>)
    requires DuplicateFree(g) && DepsOk(EnvOf(g), KeysOf(built), params, deps)
    ensures Wired(g, params, deps, built)
  {
    forall j | 0 <= j < |params|
      ensures deps[j].requested == params[j] && SourcedBy(g, params[j], deps[j].source)
      ensures BuiltBefore(g, params[j], deps[j].source, built)
    {
      SourceIsDeclared(g, params[j], built);
    }
  }

  lemma OrderIsWired(g: Graph, order: seq<Node>)
    requires DuplicateFree(g) && Topological(EnvOf(g), order)
    ensures OrderWired(g, order)
  {
    ProviderTableHolds(g.providers);
    forall i | 0 <= i < |order|
      ensures order[i].ref in g.providers && Wired(g, order[i].ref.params, order[i].deps, order[..i])
    {
      assert NodeOk(EnvOf(g), KeysOf(order[..i]), order[i]);
      DepsAreWired(g, order[i].ref.params, order[i].deps, order[..i]);
    }
    forall i, j | 0 <= i < j < |order|
      ensures order[i].ref.result.key != order[j].ref.result.key
    {
      assert NodeOk(EnvOf(g), KeysOf(order[..j]), order[j]);
      assert order[..j][i] == order[i] && KeyOf(order[i]) in KeysOf(order[..j]);
    }
  }

  lemma ResolvedIsWired(g: Graph, r: Resolved)
    requires DuplicateFree(g) && ResolvedOk(g, EnvOf(g), r)
    ensures GraphWired(g, r)
  {
    OrderIsWired(g, r.order);
    forall i | 0 <= i < |g.outputs|
      ensures r.outputs[i].requested == g.outputs[i] && r.outputs[i].field == FieldName(g.outputs, i)
      ensures SourcedBy(g, g.outputs[i], r.outputs[i].source)
      ensures BuiltBefore(g, g.outputs[i], r.outputs[i].source, r.order)
    {
      assert OutputOk(EnvOf(g), KeysOf(r.order), g.outputs, i, r.outputs[i]);
      SourceIsDeclared(g, g.outputs[i], r.order);
    }
    forall i | 0 <= i < |g.invokes|
      ensures r.invokes[i].ref == g.invokes[i] && Wired(g, g.invokes[i].params, r.invokes[i].deps, r.order)
    {
      DepsAreWired(g, g.invokes[i].params, r.invokes[i].deps, r.order);
    }
  }

  /**
   resolveGraph succeeds exactly when no key is declared twice and everything the outputs and
   invokes need, transitively, has a source and does not need itself.
   */
  method ResolveGraph(g: Graph) returns (r: Result<Resolved, Error>)
    ensures r.Ok? <==> DuplicateFree(g) && Resolvable(EnvOf(g), Roots(g))
    ensures r.Ok? ==> ResolvedOk(g, EnvOf(g), r.value) && GraphWired(g, r.value)
    ensures r.Err? ==> Blamed(g, r.error)
    ensures !DistinctProviders(g.providers) ==> r.Err? && r.error.AmbiguousProvider?
  {
    var tables := BuildTables(g);
    if tables.Err? {
      return Err(tables.error);
    }
    ProviderTableHolds(g.providers);
    var counts := CountBaseNames(g.outputs);
    var state := new ResolverState(tables.value, counts);
    var outputs := ResolveOutputs(state, g);
    if outputs.Err? {
      ghost var t :| t in Roots(g) && BadDep(EnvOf(g), t, outputs.error);
      BlamedIsUnresolvable(g, t, outputs.error);
      return Err(outputs.error);
    }
    ghost var before := state.providerOrder;
    var invokes := ResolveInvokes(state, g);
    if invokes.Err? {
      ghost var t :| t in Roots(g) && BadDep(EnvOf(g), t, invokes.error);
      BlamedIsUnresolvable(g, t, invokes.error);
      return Err(invokes.error);
    }
    KeysOfLonger(before, state.providerOrder);
    r := Ok(Resolved(state.providerOrder, invokes.value, outputs.value));
    ResolvedIsResolvable(g, tables.value, r.value);
    ResolvedIsWired(g, r.value);
  }

  /** Which providers are built does not depend on the order in which they are declared. */
  lemma DeclarationOrderIrrelevant(g: Graph, h: Graph, r: Resolved, q: Resolved)
    requires DuplicateFree(g) && DuplicateFree(h)
    requires forall p :: p in g.providers <==> p in h.providers
    requires g.inputs == h.inputs && g.bindings == h.bindings && Roots(g) == Roots(h)
    requires ResolvedOk(g, EnvOf(g), r) && ResolvedOk(h, EnvOf(h), q)
    ensures KeysOf(r.order) == KeysOf(q.order) && |r.order| == |q.order|
  {
    TableIgnoresOrder(g.providers, h.providers);
    forall k
      ensures k in KeysOf(r.order) <==> k in KeysOf(q.order)
    {}
    AsManyAsKeys(EnvOf(g), r.order);
    AsManyAsKeys(EnvOf(g), q.order);
  }

  lemma {:induction false} AsManyAsKeys(env: Env, order: seq<Node>)
    requires Topological(env, order)
    ensures |order| == |KeysOf(order)|
  {
    if order != [] {
      var n := |order| - 1;
      var init := order[..n];
      forall i | 0 <= i < n
        ensures NodeOk(env, KeysOf(init[..i]), init[i])
      {
        assert init[..i] == order[..i];
      }
      AsManyAsKeys(env, init);
      assert order == init + [order[n]];
      KeysOfMore(init, order[n]);
      assert NodeOk(env, KeysOf(init), order[n]);
    }
  }
}
