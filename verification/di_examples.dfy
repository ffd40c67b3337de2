/**
 Two graphs that can be resolved and whose Build function is wrong: the condition of
 CorrectIffFaithful fails for every build order and for the locals that are chosen.
 */
module DiExamples {
  import opened Collections
  import opened DiModel
  import opened DiNames
  import opened DiResolver
  import opened DiPlan
  import opened DiIntent
  import opened DiEmitter

  /** Build gets a call or a field wrong in some world. */
  ghost predicate GoesWrong(g: Graph, r: Resolved, aliases: set<string>, m: Machine) {
    exists w :: !BuildsIn(EnvOf(g), LocalsOf(g, r, aliases), r, m, w)
  }

  /** Misdirected reads show, where the fields have different names. */
  lemma UnfaithfulGoesWrong(g: Graph, r: Resolved, aliases: set<string>, m: Machine)
    requires DuplicateFree(g) && ResolvedOk(g, EnvOf(g), r) && Started(LocalsOf(g, r, aliases), m)
    requires PlainOutputs(g.outputs)
    requires !Faithful(EnvOf(g), LocalsOf(g, r, aliases), r)
    ensures GoesWrong(g, r, aliases, m)
  {
    var env, l := EnvOf(g), LocalsOf(g, r, aliases);
    BuildIsSetup(g, r, aliases);
    PlainFields(g.outputs);
    forall i, j | 0 <= i < j < |r.outputs|
      ensures r.outputs[i].field != r.outputs[j].field
    {
      assert OutputOk(env, KeysOf(r.order), g.outputs, i, r.outputs[i]);
      assert OutputOk(env, KeysOf(r.order), g.outputs, j, r.outputs[j]);
    }
    CorrectIffFaithful(env, l, r, m);
  }

  /** Outputs without name, package or trailing digit. */
  predicate PlainOutputs(outputs: seq<TypeRef>) {
    forall t :: t in outputs ==> t.custom == "" && t.qualifier == "" && DiNames.Plain(t.base)
  }

  lemma PlainFields(outputs: seq<TypeRef>)
    requires PlainOutputs(outputs)
    ensures FieldsDiffer(outputs) && forall i :: 0 <= i < |outputs| ==> outputs[i].custom == ""
  {
    forall i | 0 <= i < |outputs|
      ensures DiNames.Plain(FieldStem(outputs, outputs[i])) && outputs[i].custom == ""
    {
      assert outputs[i] in outputs;
    }
    PlainStemsDiffer(outputs);
  }

  /** A build order that covers the roots and holds nothing but roots is the one that is asked for. */
  lemma ResolvedBy(g: Graph, r: Resolved)
    requires Topological(EnvOf(g), r.order)
    requires forall k :: k in KeysOf(r.order) <==> exists t :: t in Roots(g) && TargetOf(EnvOf(g), t) == FromProvider(k)
    requires OutputsOk(EnvOf(g), KeysOf(r.order), g.outputs, |g.outputs|, r.outputs)
    requires InvokesOk(EnvOf(g), KeysOf(r.order), g.invokes, r.invokes)
    ensures ResolvedOk(g, EnvOf(g), r) && Resolvable(EnvOf(g), Roots(g))
  {
    var env := EnvOf(g);
    forall k
      ensures k in KeysOf(r.order) <==> Required(env, Roots(g), k)
    {
      if k in KeysOf(r.order) {
        ReachesItself(env, k);
      }
      if t :| t in Roots(g) && TargetOf(env, t).FromProvider? && Reaches(env, TargetOf(env, t).k, k) {
        OrderCertifies(env, r.order, TargetOf(env, t).k);
      }
    }
    ResolvedIsResolvable(g, env, r);
  }

  // ---------------------------------------------------------------- a cleanup takes a local

  const FOO := TypeRef("Foo", "Foo", "", "")
  const CLEANUP_FOO := TypeRef("CleanupFoo", "CleanupFoo", "", "")
  const NEW_CLEANUP_FOO := Provider("NewCleanupFoo", [], CLEANUP_FOO, false, false)
  const NEW_FOO := Provider("NewFoo", [CLEANUP_FOO], FOO, true, true)

  /** Foo is made from a CleanupFoo and has a cleanup; both are outputs. */
  function CleanupGraph(): Graph {
    Graph([], [FOO, CLEANUP_FOO], [NEW_CLEANUP_FOO, NEW_FOO], [], [])
  }

  lemma CleanupEnv()
    ensures EnvOf(CleanupGraph()) == Env(map["CleanupFoo" := NEW_CLEANUP_FOO, "Foo" := NEW_FOO], map[], map[])
    ensures DuplicateFree(CleanupGraph()) && "Foo" != "CleanupFoo"
  {
    assert |"Foo"| != |"CleanupFoo"|;
    assert CleanupGraph().providers[..1] == [NEW_CLEANUP_FOO] && CleanupGraph().providers[..1][..0] == [];
  }

  lemma ItsOwnIndex(env: Env, order: seq<Node>)
    requires Topological(env, order)
    ensures forall k :: 0 <= k < |order| ==>
              KeyOf(order[k]) in env.providers && order[k].ref == env.providers[KeyOf(order[k])]
              && KeyOf(order[k]) in KeysOf(order) && IndexOf(order, KeyOf(order[k])) == k
  {
    forall k | 0 <= k < |order|
      ensures KeyOf(order[k]) in env.providers && order[k].ref == env.providers[KeyOf(order[k])]
      ensures KeyOf(order[k]) in KeysOf(order) && IndexOf(order, KeyOf(order[k])) == k
    {
      assert NodeOk(env, KeysOf(order[..k]), order[k]);
      IndexIs(env, order, KeyOf(order[k]), k);
    }
  }

  /** The CleanupFoo is built before the Foo made from it. */
  lemma CleanupFirst(r: Resolved)
    requires ResolvedOk(CleanupGraph(), EnvOf(CleanupGraph()), r)
    ensures exists j, i :: 0 <= j < i < |r.order| && KeyOf(r.order[j]) == "CleanupFoo" && KeyOf(r.order[i]) == "Foo"
  {
    var g := CleanupGraph();
    var env := EnvOf(g);
    CleanupEnv();
    assert OutputOk(env, KeysOf(r.order), g.outputs, 0, r.outputs[0]);
    var i :| 0 <= i < |r.order| && KeyOf(r.order[i]) == "Foo";
    assert NodeOk(env, KeysOf(r.order[..i]), r.order[i]);
    assert Available(env, KeysOf(r.order[..i]), NEW_FOO.params[0].key);
    var j :| 0 <= j < i && KeyOf(r.order[..i][j]) == "CleanupFoo";
    assert KeyOf(r.order[j]) == "CleanupFoo";
  }

  /** So the build order is forced: nothing else is built. */
  lemma CleanupOrder(r: Resolved)
    requires ResolvedOk(CleanupGraph(), EnvOf(CleanupGraph()), r)
    ensures |r.order| == 2 && r.order[0].ref == NEW_CLEANUP_FOO && r.order[1].ref == NEW_FOO
  {
    CleanupEnv();
    CleanupFirst(r);
    ItsOwnIndex(EnvOf(CleanupGraph()), r.order);
    AsManyAsKeys(EnvOf(CleanupGraph()), r.order);
    SubsetSize(KeysOf(r.order), {"CleanupFoo", "Foo"});
  }

  lemma CleanupSpelling()
    ensures MakeVariableName(CLEANUP_FOO) == "cleanupFoo" && "cleanupFoo" !in HELPERS
    ensures forall v :: MakeCleanupName(FOO, v) == "cleanupFoo"
    ensures Stem("cleanupFoo") == "cleanupFoo"
  {
    assert Cut("CleanupFoo", 1) == 1;
    assert LowerCamel("CleanupFoo") == "cleanupFoo";
    assert |"cleanupFoo"| == 10 && |"app"| == 3 && |"err"| == 3 && |"cleanups"| == 8 && |"runCleanups"| == 11;
  }

  /** The CleanupFoo gets the local cleanupFoo, unless an import has that name. */
  lemma CleanupLocal(r: Resolved, aliases: set<string>)
    requires |r.order| == 2 && r.order[0].ref == NEW_CLEANUP_FOO && r.order[1].ref == NEW_FOO
    requires "cleanupFoo" !in aliases
    ensures var l := LocalsOf(CleanupGraph(), r, aliases);
      l.inputs == map[] && "CleanupFoo" in l.providers && l.providers["CleanupFoo"] == "cleanupFoo"
  {
    var reserved, wants := ReservedNames(aliases), ResultWants(ResultsOf(r.order));
    CleanupSpelling();
    assert Named(ParamWants([]), reserved) == (map[], reserved);
    var none: map<Key, string> := map[];
    var taken := reserved + none.Values;
    assert taken == reserved;
    assert wants[..1][..0] == [] && wants[..0] == [];
    assert Candidate("cleanupFoo", 0) == "cleanupFoo" && LocalName("cleanupFoo", reserved) == "cleanupFoo";
    NamedNext(wants, taken, 0);
    NamedNext(wants, taken, 1);
    assert wants[..2] == wants;
    assert |"Foo"| != |"CleanupFoo"|;
  }

  /** The cleanup of Foo is assigned to the local that holds the CleanupFoo, before the field is set. */
  lemma CleanupTakesRead(r: Resolved, aliases: set<string>)
    requires ResolvedOk(CleanupGraph(), EnvOf(CleanupGraph()), r) && "cleanupFoo" !in aliases
    ensures !Faithful(EnvOf(CleanupGraph()), LocalsOf(CleanupGraph(), r, aliases), r)
  {
    var g := CleanupGraph();
    var env, l := EnvOf(g), LocalsOf(g, r, aliases);
    CleanupEnv();
    CleanupOrder(r);
    CleanupLocal(r, aliases);
    CleanupSpelling();
    assert r.order[1].ref.hasCleanup && CleanupOf(l, r, 1) == "cleanupFoo";
    IndexIs(env, r.order, "CleanupFoo", 0);
    assert Hit(l, r, "cleanupFoo", 0, CallCount(r));
    assert OutputOk(env, KeysOf(r.order), g.outputs, 1, r.outputs[1]);
    assert !CleanRead(env, l, r, CallCount(r), OutputDep(r.outputs[1]));
  }

  function CleanupResolved(): Resolved {
    Resolved([Node(NEW_CLEANUP_FOO, []), Node(NEW_FOO, [Dep(CLEANUP_FOO, CLEANUP_FOO)])], [],
             [ResolvedOutput(FieldName(CleanupGraph().outputs, 0), FOO, FOO),
              ResolvedOutput(FieldName(CleanupGraph().outputs, 1), CLEANUP_FOO, CLEANUP_FOO)])
  }

  lemma CleanupOrdered()
    ensures Topological(EnvOf(CleanupGraph()), CleanupResolved().order)
    ensures KeysOf(CleanupResolved().order) == {"CleanupFoo", "Foo"}
  {
    CleanupEnv();
    var env, order := EnvOf(CleanupGraph()), CleanupResolved().order;
    KeysOfMore([], order[0]);
    KeysOfMore([order[0]], order[1]);
    assert [] + [order[0]] == [order[0]] && [order[0]] + [order[1]] == order && KeysOf([]) == {};
    TopologicalMore(env, [], order[0]);
    TopologicalMore(env, [order[0]], order[1]);
  }

  /** The graph is one that the generator accepts. */
  lemma CleanupResolves()
    ensures DuplicateFree(CleanupGraph()) && Resolvable(EnvOf(CleanupGraph()), Roots(CleanupGraph()))
    ensures ResolvedOk(CleanupGraph(), EnvOf(CleanupGraph()), CleanupResolved())
  {
    var g, r := CleanupGraph(), CleanupResolved();
    CleanupEnv();
    CleanupOrdered();
    assert g.outputs[0].key == "Foo" && g.outputs[1].key == "CleanupFoo";
    assert Roots(g) == {"Foo", "CleanupFoo"};
    assert OutputOk(EnvOf(g), KeysOf(r.order), g.outputs, 0, r.outputs[0]);
    assert OutputOk(EnvOf(g), KeysOf(r.order), g.outputs, 1, r.outputs[1]);
    ResolvedBy(g, r);
  }

  /**
   A type CleanupFoo and a type Foo with a cleanup: the variable of Foo's cleanup is the local
   that holds the CleanupFoo.  However the graph is resolved, the field CleanupFoo is set to a
   cleanup, so Build is wrong.
   */
  lemma CleanupTakesLocal(r: Resolved, aliases: set<string>, m: Machine)
    requires ResolvedOk(CleanupGraph(), EnvOf(CleanupGraph()), r) && "cleanupFoo" !in aliases
    requires Started(LocalsOf(CleanupGraph(), r, aliases), m)
    ensures DuplicateFree(CleanupGraph()) && Resolvable(EnvOf(CleanupGraph()), Roots(CleanupGraph()))
    ensures !Faithful(EnvOf(CleanupGraph()), LocalsOf(CleanupGraph(), r, aliases), r)
    ensures GoesWrong(CleanupGraph(), r, aliases, m)
  {
    CleanupResolves();
    CleanupTakesRead(r, aliases);
    BothPlain();
    UnfaithfulGoesWrong(CleanupGraph(), r, aliases, m);
  }

  // ---------------------------------------------------------------- an input takes a binding

  const STORE := TypeRef("Store", "Store", "", "")
  const DB := TypeRef("DB", "DB", "", "")
  const NEW_DB := Provider("NewDB", [], DB, false, false)

  /** The output Store is bound to DB, which is an input and also has a provider. */
  function BindingGraph(): Graph {
    Graph([DB], [STORE], [NEW_DB], [], [Binding(STORE, DB)])
  }

  lemma BindingEnv()
    ensures EnvOf(BindingGraph()) == Env(map["DB" := NEW_DB], map["DB" := DB], map["Store" := Binding(STORE, DB)])
    ensures DuplicateFree(BindingGraph()) && "DB" != "Store"
  {
    assert |"DB"| != |"Store"|;
    var g := BindingGraph();
    assert g.providers[..0] == [] && g.inputs[..0] == [] && g.bindings[..0] == [];
  }

  function BindingResolved(): Resolved {
    Resolved([Node(NEW_DB, [])], [], [ResolvedOutput(FieldName(BindingGraph().outputs, 0), STORE, DB)])
  }

  lemma BindingResolves()
    ensures DuplicateFree(BindingGraph()) && Resolvable(EnvOf(BindingGraph()), Roots(BindingGraph()))
    ensures ResolvedOk(BindingGraph(), EnvOf(BindingGraph()), BindingResolved())
  {
    var g, r := BindingGraph(), BindingResolved();
    BindingEnv();
    KeysOfMore([], r.order[0]);
    assert [] + [r.order[0]] == r.order && KeysOf([]) == {};
    TopologicalMore(EnvOf(g), [], r.order[0]);
    assert g.outputs[0].key in Roots(g);
    ResolvedBy(g, r);
  }

  lemma BothPlain()
    ensures PlainOutputs(CleanupGraph().outputs) && PlainOutputs(BindingGraph().outputs)
  {
    assert |"Foo"| == 3 && |"CleanupFoo"| == 10 && |"Store"| == 5;
  }

  /** The name of the input stands for the type, so the bound provider is never read. */
  lemma InputTakesRead(r: Resolved, aliases: set<string>)
    requires ResolvedOk(BindingGraph(), EnvOf(BindingGraph()), r)
    ensures "DB" in KeysOf(r.order) && !Faithful(EnvOf(BindingGraph()), LocalsOf(BindingGraph(), r, aliases), r)
  {
    var g := BindingGraph();
    var env, l := EnvOf(g), LocalsOf(g, r, aliases);
    BindingEnv();
    assert OutputOk(env, KeysOf(r.order), g.outputs, 0, r.outputs[0]);
    assert !CleanRead(env, l, r, CallCount(r), OutputDep(r.outputs[0]));
  }

  /**
   A bound concrete type that is also an input: its provider is built and its result is ignored,
   the field gets the input.
   */
  lemma InputTakesBinding(r: Resolved, aliases: set<string>, m: Machine)
    requires ResolvedOk(BindingGraph(), EnvOf(BindingGraph()), r) && Started(LocalsOf(BindingGraph(), r, aliases), m)
    ensures DuplicateFree(BindingGraph()) && Resolvable(EnvOf(BindingGraph()), Roots(BindingGraph()))
    ensures "DB" in KeysOf(r.order) && !Faithful(EnvOf(BindingGraph()), LocalsOf(BindingGraph(), r, aliases), r)
    ensures GoesWrong(BindingGraph(), r, aliases, m)
  {
    BindingResolves();
    InputTakesRead(r, aliases);
    BothPlain();
    UnfaithfulGoesWrong(BindingGraph(), r, aliases, m);
  }
}
