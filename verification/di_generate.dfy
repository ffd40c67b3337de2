/**
 The generator from end to end: load and expand, resolve, emit.
 */
module DiGenerator {
  import opened DiModel
  import opened DiLoader
  import opened DiResolver
  import opened DiPlan
  import opened DiEmitter

  datatype Failure = LoadFailed(load: LoadError) | ResolveFailed(resolve: Error)

  datatype Output = Output(g: Graph, resolved: Resolved, locals: Locals, program: seq<Stmt>)

  /** The graph that the declarations amount to once the includes are expanded. */
  ghost predicate Declares(vars: Vars, name: string, g: Graph) {
    name in vars && Flatten(vars, Items(vars[name]), {}) == Ok(g)
  }

  ghost predicate Generable(g: Graph) {
    DuplicateFree(g) && Resolvable(EnvOf(g), Roots(g))
  }

  /** Succeeds exactly for declarations that expand to a graph that can be resolved. */
  method Generate(vars: Vars, name: string, aliases: set<string>) returns (r: Result<Output, Failure>)
    ensures r.Ok? <==> exists g :: Declares(vars, name, g) && Generable(g)
    ensures r.Ok? ==>
      var o := r.value;
      && Declares(vars, name, o.g) && ResolvedOk(o.g, EnvOf(o.g), o.resolved) && GraphWired(o.g, o.resolved)
      && vars[name].GraphCall? && KeepsOrder(vars, vars[name].options, o.g)
      && o.locals == LocalsOf(o.g, o.resolved, aliases) && Setup(EnvOf(o.g), o.locals, o.resolved)
      && o.program == Program(o.locals, o.resolved)
    ensures forall g :: Declares(vars, name, g) && !DistinctProviders(g.providers) ==>
      r.Err? && r.error.ResolveFailed? && r.error.resolve.AmbiguousProvider?
  {
    var graph := ParseGraph(vars, name);
    if graph.Err? {
      ghost var items := if name in vars then Items(vars[name]) else [];
      assert name in vars ==> Flatten(vars, items, {}).Err? by { ExpandableIff(vars, items, {}); }
      return Err(LoadFailed(graph.error));
    }
    var g := graph.value;
    assert Declares(vars, name, g);
    var resolved := ResolveGraph(g);
    if resolved.Err? {
      return Err(ResolveFailed(resolved.error));
    }
    assert Generable(g);
    var locals, program := EmitBuildFunc(g, resolved.value, aliases);
    return Ok(Output(g, resolved.value, locals, program));
  }

  /** A module with a provider to which two ways of includes lead is never generated. */
  lemma DoubleIncludeIsRejected(vars: Vars, name: string, g: Graph, n: string, provider: Provider)
    requires Declares(vars, name, g) && TwoWaysTo(vars, Items(vars[name]), n)
    requires n in vars && Provides(Items(vars[n]), provider)
    ensures !DistinctProviders(g.providers) && !Generable(g)
  {
    ExpandedTwiceIff(vars, Items(vars[name]), {}, n);
    DoubleIncludeIsAmbiguous(vars, Items(vars[name]), n, provider);
  }
}
