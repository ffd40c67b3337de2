/**
 Include expansion: mergeGraphExpr merges the declarations of di.New(...) and di.Module(...)
 calls depth first and refuses include cycles.  Parsing Go expressions is not modelled; an
 option is what its parser makes of it.
 */
module DiLoader {
  import opened Collections
  import opened DiModel

  datatype LoadError =
    | GraphNotFound(name: string)
    | NotDI
    | BadOption
    | NotAnIdentifier
    | IncludeCycle(name: string)
    | ModuleNotFound(name: string)

  datatype Arg = Ident(name: string) | OtherExpr

  /** One argument of di.New or di.Module; Declares stands for Inputs, Outputs, Provide, Invoke and Bind. */
  datatype GraphOption = Declares(g: Graph) | Include(args: seq<Arg>) | Malformed

  datatype Expr = GraphCall(options: seq<GraphOption>) | NotAGraph

  type Vars = map<string, Expr>

  /** The options in order, with the arguments of Include one by one. */
  datatype Item = Part(g: Graph) | Use(name: string) | Bad(e: LoadError)

  function ArgItem(a: Arg): Item {
    if a.Ident? then Use(a.name) else Bad(NotAnIdentifier)
  }

  function OptionItems(o: GraphOption): seq<Item> {
    match o
    case Declares(g) => [Part(g)]
    case Include(args) => seq(|args|, i requires 0 <= i < |args| => ArgItem(args[i]))
    case Malformed => [Bad(BadOption)]
  }

  function ItemsOf(options: seq<GraphOption>): seq<Item> {
    if options == [] then [] else ItemsOf(options[..|options| - 1]) + OptionItems(options[|options| - 1])
  }

  function Items(e: Expr): seq<Item> {
    if e.GraphCall? then ItemsOf(e.options) else [Bad(NotDI)]
  }

  // ---------------------------------------------------------------- expansion

  /** Depth-first, left to right, up to the first error; `seen` holds the modules on the path. */
  function Flatten(vars: Vars, items: seq<Item>, seen: set<string>): Result<Graph, LoadError>
    decreases |vars.Keys - seen|, |items|
  {
    if items == [] then Ok(EMPTY)
    else
      var r := Flatten(vars, items[..|items| - 1], seen);
      if r.Err? then r else
        var q := FlattenItem(vars, items[|items| - 1], seen);
        if q.Err? then q else Ok(Append(r.value, q.value))
  }

  function FlattenItem(vars: Vars, item: Item, seen: set<string>): Result<Graph, LoadError>
    decreases |vars.Keys - seen|, 0
  {
    match item
    case Bad(e) => Err(e)
    case Part(g) => Ok(g)
    case Use(name) =>
      if name in seen then Err(IncludeCycle(name))
      else if name !in vars then Err(ModuleNotFound(name))
      else (Deeper(vars, seen, name); Flatten(vars, Items(vars[name]), seen + {name}))
  }

  lemma Deeper(vars: Vars, seen: set<string>, name: string)
    requires name in vars && name !in seen
    ensures |vars.Keys - (seen + {name})| < |vars.Keys - seen|
  {
    assert vars.Keys - seen == (vars.Keys - (seen + {name})) + {name};
  }

  lemma AppendAssociative(a: Graph, b: Graph, c: Graph)
    ensures Append(Append(a, b), c) == Append(a, Append(b, c))
    ensures Append(EMPTY, a) == a && Append(a, EMPTY) == a
  {
  }

  lemma {:induction false} FlattenConcat(vars: Vars, a: seq<Item>, b: seq<Item>, seen: set<string>)
    ensures var r, x, y := Flatten(vars, a + b, seen), Flatten(vars, a, seen), Flatten(vars, b, seen);
      r == if x.Err? then x else if y.Err? then y else Ok(Append(x.value, y.value))
    decreases |b|
  {
    if b == [] {
      assert a + b == a;
      if Flatten(vars, a, seen).Ok? { AppendAssociative(Flatten(vars, a, seen).value, EMPTY, EMPTY); }
    } else {
      var n := |b| - 1;
      var init, last := b[..n], b[n];
      assert (a + b)[..|a + b| - 1] == a + init;
      FlattenConcat(vars, a, init, seen);
      var x, y, z := Flatten(vars, a, seen), Flatten(vars, init, seen), FlattenItem(vars, last, seen);
      if x.Ok? && y.Ok? && z.Ok? { AppendAssociative(x.value, y.value, z.value); }
    }
  }

  lemma FlattenOne(vars: Vars, item: Item, seen: set<string>)
    ensures Flatten(vars, [item], seen) == FlattenItem(vars, item, seen)
  {
    assert [item][..0] == [];
    var q := FlattenItem(vars, item, seen);
    if q.Ok? { AppendAssociative(q.value, EMPTY, EMPTY); }
  }

  // ---------------------------------------------------------------- declarations keep their order

  function Expansion(vars: Vars, options: seq<GraphOption>, seen: set<string>): Result<Graph, LoadError> {
    Flatten(vars, ItemsOf(options), seen)
  }

  lemma {:induction false} ItemsConcat(a: seq<GraphOption>, b: seq<GraphOption>)
    ensures ItemsOf(a + b) == ItemsOf(a) + ItemsOf(b)
  {
    if b == [] {
      assert a + b == a;
    } else {
      var n := |b| - 1;
      var last := OptionItems(b[n]);
      ItemsConcat(a, b[..n]);
      assert (a + b)[..|a + b| - 1] == a + b[..n] && (a + b)[|a + b| - 1] == b[n];
      assert ItemsOf(b) == ItemsOf(b[..n]) + last && ItemsOf(a + b) == ItemsOf(a + b[..n]) + last;
      Reassociate(ItemsOf(a), ItemsOf(b[..n]), last);
    }
  }

  lemma AppendFollows(a: Graph, b: Graph)
    ensures Follows(Append(a, b), a, b)
  {
  }

  lemma FlattenInOrder(vars: Vars, a: seq<Item>, b: seq<Item>, seen: set<string>)
    requires Flatten(vars, a + b, seen).Ok?
    ensures Flatten(vars, a, seen).Ok? && Flatten(vars, b, seen).Ok?
    ensures Follows(Flatten(vars, a + b, seen).value, Flatten(vars, a, seen).value, Flatten(vars, b, seen).value)
  {
    FlattenConcat(vars, a, b, seen);
  }

  /** In each list the declarations of earlier options stand before those of later ones. */
  lemma ExpansionInOrder(vars: Vars, a: seq<GraphOption>, b: seq<GraphOption>, seen: set<string>)
    requires Expansion(vars, a + b, seen).Ok?
    ensures Expansion(vars, a, seen).Ok? && Expansion(vars, b, seen).Ok?
    ensures Follows(Expansion(vars, a + b, seen).value, Expansion(vars, a, seen).value, Expansion(vars, b, seen).value)
  {
    ItemsConcat(a, b);
    FlattenInOrder(vars, ItemsOf(a), ItemsOf(b), seen);
  }

  /** So do those of the modules that one Include names. */
  lemma IncludeInOrder(vars: Vars, xs: seq<Arg>, ys: seq<Arg>, seen: set<string>)
    requires Expansion(vars, [Include(xs + ys)], seen).Ok?
    ensures Expansion(vars, [Include(xs)], seen).Ok? && Expansion(vars, [Include(ys)], seen).Ok?
    ensures Follows(Expansion(vars, [Include(xs + ys)], seen).value,
                    Expansion(vars, [Include(xs)], seen).value, Expansion(vars, [Include(ys)], seen).value)
  {
    IncludeItems(xs, ys);
    FlattenInOrder(vars, ItemsOf([Include(xs)]), ItemsOf([Include(ys)]), seen);
  }

  lemma IncludeItems(xs: seq<Arg>, ys: seq<Arg>)
    ensures ItemsOf([Include(xs + ys)]) == ItemsOf([Include(xs)]) + ItemsOf([Include(ys)])
  {
    OneOption(Include(xs + ys));
    OneOption(Include(xs));
    OneOption(Include(ys));
    assert OptionItems(Include(xs + ys)) == OptionItems(Include(xs)) + OptionItems(Include(ys));
  }

  lemma OneOption(o: GraphOption)
    ensures ItemsOf([o]) == OptionItems(o)
  {
    assert [o][..0] == [] && ItemsOf([]) == [];
  }

  /** One option stands for its declarations, or for those of the module it includes. */
  lemma OneExpansion(vars: Vars, g: Graph, name: string, seen: set<string>)
    ensures Expansion(vars, [], seen) == Ok(EMPTY) && Expansion(vars, [Declares(g)], seen) == Ok(g)
    ensures name !in seen && name in vars && vars[name].GraphCall? ==>
              Expansion(vars, [Include([Ident(name)])], seen) == Expansion(vars, vars[name].options, seen + {name})
  {
    OneOption(Declares(g));
    FlattenOne(vars, Part(g), seen);
    OneOption(Include([Ident(name)]));
    assert OptionItems(Include([Ident(name)])) == [Use(name)];
    FlattenOne(vars, Use(name), seen);
  }

  /** Wherever the options are split, the declarations of the first part come first. */
  ghost predicate KeepsOrder(vars: Vars, options: seq<GraphOption>, g: Graph) {
    forall k :: 0 <= k <= |options| ==>
      var a, b := Expansion(vars, options[..k], {}), Expansion(vars, options[k..], {});
      a.Ok? && b.Ok? && Follows(g, a.value, b.value)
  }

  lemma ExpansionKeepsOrder(vars: Vars, options: seq<GraphOption>)
    requires Expansion(vars, options, {}).Ok?
    ensures KeepsOrder(vars, options, Expansion(vars, options, {}).value)
  {
    forall k | 0 <= k <= |options|
      ensures var a, b := Expansion(vars, options[..k], {}), Expansion(vars, options[k..], {});
        a.Ok? && b.Ok? && Follows(Expansion(vars, options, {}).value, a.value, b.value)
    {
      assert options[..k] + options[k..] == options;
      ExpansionInOrder(vars, options[..k], options[k..], {});
    }
  }

  // ---------------------------------------------------------------- when expansion succeeds

  ghost predicate NoBad(items: seq<Item>) {
    forall e :: Bad(e) !in items
  }

  /** p is a chain of includes that starts among the items. */
  ghost predicate IncludePath(vars: Vars, items: seq<Item>, p: seq<string>) {
    && |p| > 0 && Use(p[0]) in items
    && forall i :: 0 <= i < |p| - 1 ==> p[i] in vars && Use(p[i + 1]) in Items(vars[p[i]])
  }

  ghost predicate NoRepeat(p: seq<string>) {
    forall i, j :: 0 <= i < j < |p| ==> p[i] != p[j]
  }

  ghost predicate PathOk(vars: Vars, p: seq<string>, seen: set<string>)
    requires |p| > 0
  {
    && p[|p| - 1] in vars && NoBad(Items(vars[p[|p| - 1]])) && NoRepeat(p)
    && forall i :: 0 <= i < |p| ==> p[i] !in seen
  }

  /** Nothing is malformed, and every chain of includes ends in a declared module and never returns. */
  ghost predicate Expandable(vars: Vars, items: seq<Item>, seen: set<string>) {
    NoBad(items) && forall p :: IncludePath(vars, items, p) ==> PathOk(vars, p, seen)
  }

  lemma PathTail(vars: Vars, items: seq<Item>, p: seq<string>)
    requires IncludePath(vars, items, p) && |p| > 1
    ensures p[0] in vars && IncludePath(vars, Items(vars[p[0]]), p[1..])
  {
    var q := p[1..];
    forall i | 0 <= i < |q| - 1
      ensures q[i] in vars && Use(q[i + 1]) in Items(vars[q[i]])
    {
      assert q[i] == p[i + 1] && q[i + 1] == p[i + 2];
    }
  }

  lemma PathHead(vars: Vars, items: seq<Item>, name: string, q: seq<string>)
    requires Use(name) in items && name in vars && IncludePath(vars, Items(vars[name]), q)
    ensures IncludePath(vars, items, [name] + q)
  {
    var p := [name] + q;
    forall i | 0 <= i < |p| - 1
      ensures p[i] in vars && Use(p[i + 1]) in Items(vars[p[i]])
    {
      if i > 0 { assert p[i] == q[i - 1] && p[i + 1] == q[i]; }
    }
  }

  lemma RestOk(vars: Vars, name: string, q: seq<string>, seen: set<string>)
    requires |q| > 0 && PathOk(vars, [name] + q, seen)
    ensures PathOk(vars, q, seen + {name})
  {
    var p := [name] + q;
    forall i | 0 <= i < |q|
      ensures q[i] !in seen + {name}
    {
      assert p[i + 1] == q[i] && p[0] == name;
    }
    forall i, j | 0 <= i < j < |q|
      ensures q[i] != q[j]
    {
      assert p[i + 1] == q[i] && p[j + 1] == q[j];
    }
  }

  lemma SubExpandable(vars: Vars, items: seq<Item>, seen: set<string>, name: string)
    requires Expandable(vars, items, seen) && Use(name) in items
    ensures name !in seen && name in vars && Expandable(vars, Items(vars[name]), seen + {name})
  {
    assert IncludePath(vars, items, [name]);
    assert PathOk(vars, [name], seen);
    forall q | IncludePath(vars, Items(vars[name]), q)
      ensures PathOk(vars, q, seen + {name})
    {
      PathHead(vars, items, name, q);
      RestOk(vars, name, q, seen);
    }
  }

  lemma SuperExpandable(vars: Vars, name: string, seen: set<string>, p: seq<string>, items: seq<Item>)
    requires IncludePath(vars, items, p) && p[0] == name && name !in seen && name in vars
    requires Expandable(vars, Items(vars[name]), seen + {name})
    ensures PathOk(vars, p, seen)
  {
    if |p| > 1 {
      PathTail(vars, items, p);
      var q := p[1..];
      assert PathOk(vars, q, seen + {name});
      forall i | 0 < i < |p|
        ensures p[i] !in seen + {name}
      {
        assert p[i] == q[i - 1];
      }
      forall i, j | 0 < i < j < |p|
        ensures p[i] != p[j]
      {
        assert p[i] == q[i - 1] && p[j] == q[j - 1];
      }
    }
  }

  ghost predicate ItemExpandable(vars: Vars, item: Item, seen: set<string>) {
    match item
    case Bad(_) => false
    case Part(_) => true
    case Use(name) => name !in seen && name in vars && Expandable(vars, Items(vars[name]), seen + {name})
  }

  lemma ExpandableLast(vars: Vars, items: seq<Item>, seen: set<string>)
    requires items != []
    ensures Expandable(vars, items, seen) <==>
      Expandable(vars, items[..|items| - 1], seen) && ItemExpandable(vars, items[|items| - 1], seen)
  {
    var n := |items| - 1;
    var init, last := items[..n], items[n];
    forall x
      ensures x in items <==> x in init || x == last
    {
      if x == last { assert items[n] == x; }
      assert items == init + [last];
    }
    if Expandable(vars, items, seen) {
      forall p | IncludePath(vars, init, p)
        ensures PathOk(vars, p, seen)
      {
        assert IncludePath(vars, items, p);
      }
      if last.Use? { SubExpandable(vars, items, seen, last.name); }
    }
    if Expandable(vars, init, seen) && ItemExpandable(vars, last, seen) {
      forall p | IncludePath(vars, items, p)
        ensures PathOk(vars, p, seen)
      {
        if Use(p[0]) in init {
          assert IncludePath(vars, init, p);
        } else {
          assert last == Use(p[0]);
          SuperExpandable(vars, last.name, seen, p, items);
        }
      }
    }
  }

  /** Expansion succeeds exactly when nothing reachable is malformed, missing or cyclic. */
  lemma {:induction false} ExpandableIff(vars: Vars, items: seq<Item>, seen: set<string>)
    ensures Flatten(vars, items, seen).Ok? <==> Expandable(vars, items, seen)
    decreases |vars.Keys - seen|, |items|
  {
    if items != [] {
      var init, last := items[..|items| - 1], items[|items| - 1];
      ExpandableLast(vars, items, seen);
      ExpandableIff(vars, init, seen);
      if last.Use? && last.name !in seen && last.name in vars {
        Deeper(vars, seen, last.name);
        ExpandableIff(vars, Items(vars[last.name]), seen + {last.name});
      }
    }
  }

  /** The error is one that some include path leads to. */
  ghost predicate LeadsToError(vars: Vars, items: seq<Item>, p: seq<string>, seen: set<string>, e: LoadError) {
    && IncludePath(vars, items, p)
    && var n := p[|p| - 1];
       || (n in vars && Bad(e) in Items(vars[n]))
       || (n !in vars && e == ModuleNotFound(n))
       || (e == IncludeCycle(n) && (n in seen || n in p[..|p| - 1]))
  }

  /** What an error says is so. */
  lemma {:induction false} ErrorIsReal(vars: Vars, items: seq<Item>, seen: set<string>)
    requires Flatten(vars, items, seen).Err?
    ensures var e := Flatten(vars, items, seen).error;
      Bad(e) in items || exists p :: LeadsToError(vars, items, p, seen, e)
    decreases |vars.Keys - seen|, |items|
  {
    var init, last := items[..|items| - 1], items[|items| - 1];
    var e := Flatten(vars, items, seen).error;
    assert items == init + [last];
    if Flatten(vars, init, seen).Err? {
      ErrorIsReal(vars, init, seen);
      if Bad(e) !in items {
        var p :| LeadsToError(vars, init, p, seen, e);
        assert LeadsToError(vars, items, p, seen, e);
      }
    } else if last.Use? {
      UseErrorIsReal(vars, items, seen, last.name);
    }
  }

  lemma {:induction false} UseErrorIsReal(vars: Vars, items: seq<Item>, seen: set<string>, name: string)
    requires Use(name) in items && FlattenItem(vars, Use(name), seen).Err?
    ensures exists p :: LeadsToError(vars, items, p, seen, FlattenItem(vars, Use(name), seen).error)
    decreases |vars.Keys - seen|, 0
  {
    var e := FlattenItem(vars, Use(name), seen).error;
    if name in seen || name !in vars {
      assert LeadsToError(vars, items, [name], seen, e);
    } else {
      Deeper(vars, seen, name);
      var body := Items(vars[name]);
      ErrorIsReal(vars, body, seen + {name});
      if Bad(e) in body {
        assert LeadsToError(vars, items, [name], seen, e);
      } else {
        var q :| LeadsToError(vars, body, q, seen + {name}, e);
        PathHead(vars, items, name, q);
        var p := [name] + q;
        assert p[|p| - 1] == q[|q| - 1] && p[..|p| - 1] == [name] + q[..|q| - 1];
        assert LeadsToError(vars, items, p, seen, e);
      }
    }
  }

  // ---------------------------------------------------------------- expansion is substitution

  lemma SmallerSeen(vars: Vars, items: seq<Item>, seen: set<string>, fewer: set<string>)
    requires Flatten(vars, items, seen).Ok? && fewer <= seen
    ensures Flatten(vars, items, fewer).Ok?
  {
    ExpandableIff(vars, items, seen);
    ExpandableIff(vars, items, fewer);
    forall p | IncludePath(vars, items, p)
      ensures PathOk(vars, p, fewer)
    {
      assert PathOk(vars, p, seen);
    }
  }

  /** The path only decides about cycles: two successful expansions agree. */
  lemma {:induction false} SeenIrrelevant(vars: Vars, items: seq<Item>, s: set<string>, t: set<string>)
    requires Flatten(vars, items, s).Ok? && Flatten(vars, items, t).Ok?
    ensures Flatten(vars, items, s) == Flatten(vars, items, t)
    decreases |vars.Keys - s|, |items|
  {
    if items != [] {
      var last := items[|items| - 1];
      SeenIrrelevant(vars, items[..|items| - 1], s, t);
      if last.Use? {
        Deeper(vars, s, last.name);
        SeenIrrelevant(vars, Items(vars[last.name]), s + {last.name}, t + {last.name});
      }
    }
  }

  /** Including a module means writing its options in the place of the Include. */
  lemma IncludeIsInlining(vars: Vars, pre: seq<Item>, name: string, post: seq<Item>, seen: set<string>)
    requires Flatten(vars, pre + [Use(name)] + post, seen).Ok?
    ensures name in vars
    ensures Flatten(vars, pre + Items(vars[name]) + post, seen) == Flatten(vars, pre + [Use(name)] + post, seen)
  {
    FlattenConcat(vars, pre + [Use(name)], post, seen);
    FlattenConcat(vars, pre, [Use(name)], seen);
    FlattenOne(vars, Use(name), seen);
    var body := Items(vars[name]);
    SmallerSeen(vars, body, seen + {name}, seen);
    SeenIrrelevant(vars, body, seen + {name}, seen);
    FlattenConcat(vars, pre + body, post, seen);
    FlattenConcat(vars, pre, body, seen);
  }

  // ---------------------------------------------------------------- modules reached twice

  /** How often module n is expanded. */
  function Expansions(vars: Vars, items: seq<Item>, seen: set<string>, n: string): nat
    decreases |vars.Keys - seen|, |items|
  {
    if items == [] then 0
    else Expansions(vars, items[..|items| - 1], seen, n) + ItemExpansions(vars, items[|items| - 1], seen, n)
  }

  function ItemExpansions(vars: Vars, item: Item, seen: set<string>, n: string): nat
    decreases |vars.Keys - seen|, 0
  {
    if item.Use? && item.name !in seen && item.name in vars then
      Deeper(vars, seen, item.name);
      (if item.name == n then 1 else 0) + Expansions(vars, Items(vars[item.name]), seen + {item.name}, n)
    else 0
  }

  lemma {:induction false} NotInsideItself(vars: Vars, items: seq<Item>, seen: set<string>, n: string)
    requires n in seen
    ensures Expansions(vars, items, seen, n) == 0
    decreases |vars.Keys - seen|, |items|
  {
    if items != [] {
      var last := items[|items| - 1];
      NotInsideItself(vars, items[..|items| - 1], seen, n);
      if last.Use? && last.name !in seen && last.name in vars {
        Deeper(vars, seen, last.name);
        NotInsideItself(vars, Items(vars[last.name]), seen + {last.name}, n);
      }
    }
  }

  ghost predicate Provides(items: seq<Item>, p: Provider) {
    exists g :: Part(g) in items && p in g.providers
  }

  lemma {:induction false} OwnProviderKept(vars: Vars, items: seq<Item>, seen: set<string>, p: Provider)
    requires Flatten(vars, items, seen).Ok? && Provides(items, p)
    ensures p in Flatten(vars, items, seen).value.providers
  {
    var n := |items| - 1;
    var g :| Part(g) in items && p in g.providers;
    if Part(g) in items[..n] {
      OwnProviderKept(vars, items[..n], seen, p);
    } else {
      assert items == items[..n] + [items[n]];
      assert items[n] == Part(g);
    }
  }

  /** Each expansion of a module brings its providers along once more. */
  lemma {:induction false} ProvidersRepeat(vars: Vars, items: seq<Item>, seen: set<string>, n: string, p: Provider)
    requires Flatten(vars, items, seen).Ok? && n in vars && Provides(Items(vars[n]), p)
    ensures multiset(Flatten(vars, items, seen).value.providers)[p] >= Expansions(vars, items, seen, n)
    decreases |vars.Keys - seen|, |items|
  {
    if items != [] {
      var init, last := items[..|items| - 1], items[|items| - 1];
      ProvidersRepeat(vars, init, seen, n, p);
      if last.Use? {
        var body, path := Items(vars[last.name]), seen + {last.name};
        Deeper(vars, seen, last.name);
        if last.name == n {
          OwnProviderKept(vars, body, path, p);
          NotInsideItself(vars, body, path, n);
        } else {
          ProvidersRepeat(vars, body, path, n, p);
        }
      }
    }
  }

  /**
   p leads from the items to an include of module n: p[0] is the position of the first include on
   the way, p[1] the position of the next one in the module it names, and so on.
   */
  predicate LeadsTo(vars: Vars, items: seq<Item>, p: seq<nat>, n: string)
    decreases |p|, 0
  {
    |p| > 0 && p[0] < |items| && ItemLeadsTo(vars, items[p[0]], p[1..], n)
  }

  predicate ItemLeadsTo(vars: Vars, item: Item, p: seq<nat>, n: string)
    decreases |p|, 1
  {
    item.Use? && if p == [] then item.name == n else item.name in vars && LeadsTo(vars, Items(vars[item.name]), p, n)
  }

  ghost predicate TwoWaysTo(vars: Vars, items: seq<Item>, n: string) {
    exists p, q :: p != q && LeadsTo(vars, items, p, n) && LeadsTo(vars, items, q, n)
  }

  lemma {:induction false} ReachedOnce(vars: Vars, items: seq<Item>, seen: set<string>, p: seq<nat>, n: string)
    requires Flatten(vars, items, seen).Ok? && LeadsTo(vars, items, p, n)
    ensures Expansions(vars, items, seen, n) >= 1
    decreases |vars.Keys - seen|, |items|
  {
    var k := |items| - 1;
    if p[0] < k {
      ReachedOnce(vars, items[..k], seen, p, n);
    } else if |p| > 1 {
      Deeper(vars, seen, items[k].name);
      ReachedOnce(vars, Items(vars[items[k].name]), seen + {items[k].name}, p[1..], n);
    }
  }

  lemma {:induction false} ReachedTwice(vars: Vars, items: seq<Item>, seen: set<string>, p: seq<nat>, q: seq<nat>,
                                        n: string)
    requires Flatten(vars, items, seen).Ok? && LeadsTo(vars, items, p, n) && LeadsTo(vars, items, q, n) && p != q
    ensures Expansions(vars, items, seen, n) >= 2
    decreases |vars.Keys - seen|, |items|
  {
    var k := |items| - 1;
    if p[0] < k && q[0] < k {
      ReachedTwice(vars, items[..k], seen, p, q, n);
    } else if p[0] < k {
      ReachedOnce(vars, items[..k], seen, p, n);
      LastReaches(vars, items[k], seen, q[1..], n);
    } else if q[0] < k {
      ReachedOnce(vars, items[..k], seen, q, n);
      LastReaches(vars, items[k], seen, p[1..], n);
    } else {
      assert p == [k] + p[1..] && q == [k] + q[1..];
      LastReachesTwice(vars, items[k], seen, p[1..], q[1..], n);
    }
  }

  lemma {:induction false} LastReaches(vars: Vars, item: Item, seen: set<string>, p: seq<nat>, n: string)
    requires FlattenItem(vars, item, seen).Ok? && ItemLeadsTo(vars, item, p, n)
    ensures ItemExpansions(vars, item, seen, n) >= 1
  {
    if p != [] {
      ReachedOnce(vars, Items(vars[item.name]), seen + {item.name}, p, n);
    }
  }

  lemma {:induction false} LastReachesTwice(vars: Vars, item: Item, seen: set<string>, p: seq<nat>, q: seq<nat>,
                                            n: string)
    requires FlattenItem(vars, item, seen).Ok? && ItemLeadsTo(vars, item, p, n) && ItemLeadsTo(vars, item, q, n)
    requires p != q
    ensures ItemExpansions(vars, item, seen, n) >= 2
    decreases |vars.Keys - seen|, 0
  {
    Deeper(vars, seen, item.name);
    var body, path := Items(vars[item.name]), seen + {item.name};
    if p == [] {
      ReachedOnce(vars, body, path, q, n);
    } else if q == [] {
      ReachedOnce(vars, body, path, p, n);
    } else {
      ReachedTwice(vars, body, path, p, q, n);
    }
  }

  lemma {:induction false} WayFound(vars: Vars, items: seq<Item>, seen: set<string>, n: string) returns (p: seq<nat>)
    requires Expansions(vars, items, seen, n) >= 1
    ensures LeadsTo(vars, items, p, n)
    decreases |vars.Keys - seen|, |items|
  {
    var k := |items| - 1;
    if Expansions(vars, items[..k], seen, n) >= 1 {
      p := WayFound(vars, items[..k], seen, n);
    } else {
      p := WayIn(vars, items[k], seen, n);
      p := WayThrough(vars, items, k, p, n);
    }
  }

  lemma {:induction false} WayIn(vars: Vars, item: Item, seen: set<string>, n: string) returns (p: seq<nat>)
    requires ItemExpansions(vars, item, seen, n) >= 1
    ensures ItemLeadsTo(vars, item, p, n)
    decreases |vars.Keys - seen|, 0
  {
    if item.name == n {
      p := [];
    } else {
      Deeper(vars, seen, item.name);
      p := WayFound(vars, Items(vars[item.name]), seen + {item.name}, n);
    }
  }

  lemma WayThrough(vars: Vars, items: seq<Item>, k: nat, p: seq<nat>, n: string) returns (q: seq<nat>)
    requires k < |items| && ItemLeadsTo(vars, items[k], p, n)
    ensures q == [k] + p && LeadsTo(vars, items, q, n)
  {
    q := [k] + p;
    assert q[1..] == p;
  }

  lemma {:induction false} TwoWaysFound(vars: Vars, items: seq<Item>, seen: set<string>, n: string)
    returns (p: seq<nat>, q: seq<nat>)
    requires Expansions(vars, items, seen, n) >= 2
    ensures LeadsTo(vars, items, p, n) && LeadsTo(vars, items, q, n) && p != q
    decreases |vars.Keys - seen|, |items|
  {
    var k := |items| - 1;
    if Expansions(vars, items[..k], seen, n) >= 2 {
      p, q := TwoWaysFound(vars, items[..k], seen, n);
    } else if Expansions(vars, items[..k], seen, n) == 1 {
      p := WayFound(vars, items[..k], seen, n);
      q := WayIn(vars, items[k], seen, n);
      q := WayThrough(vars, items, k, q, n);
    } else {
      p, q := TwoWaysIn(vars, items[k], seen, n);
      assert ([k] + p)[1..] == p && ([k] + q)[1..] == q;
      p := WayThrough(vars, items, k, p, n);
      q := WayThrough(vars, items, k, q, n);
    }
  }

  lemma {:induction false} TwoWaysIn(vars: Vars, item: Item, seen: set<string>, n: string)
    returns (p: seq<nat>, q: seq<nat>)
    requires ItemExpansions(vars, item, seen, n) >= 2
    ensures ItemLeadsTo(vars, item, p, n) && ItemLeadsTo(vars, item, q, n) && p != q
    decreases |vars.Keys - seen|, 0
  {
    Deeper(vars, seen, item.name);
    var body, path := Items(vars[item.name]), seen + {item.name};
    if item.name == n {
      p := [];
      q := WayFound(vars, body, path, n);
    } else {
      p, q := TwoWaysFound(vars, body, path, n);
    }
  }

  /** A module is expanded more than once exactly when two different ways of includes lead to it. */
  lemma ExpandedTwiceIff(vars: Vars, items: seq<Item>, seen: set<string>, n: string)
    requires Flatten(vars, items, seen).Ok?
    ensures Expansions(vars, items, seen, n) >= 2 <==> TwoWaysTo(vars, items, n)
  {
    if Expansions(vars, items, seen, n) >= 2 {
      var p, q := TwoWaysFound(vars, items, seen, n);
    }
    if TwoWaysTo(vars, items, n) {
      var p, q :| p != q && LeadsTo(vars, items, p, n) && LeadsTo(vars, items, q, n);
      ReachedTwice(vars, items, seen, p, q, n);
    }
  }

  /** The simplest two ways: the module written twice in one list. */
  lemma ListedTwice(vars: Vars, items: seq<Item>, i: nat, j: nat, n: string)
    requires i < j < |items| && items[i] == Use(n) == items[j]
    ensures TwoWaysTo(vars, items, n)
  {
    var p := WayThrough(vars, items, i, [], n);
    var q := WayThrough(vars, items, j, [], n);
    assert p[0] != q[0];
  }

  lemma {:induction false} TwiceIsTwoPlaces<T>(s: seq<T>, x: T) returns (i: nat, j: nat)
    requires multiset(s)[x] >= 2
    ensures i < j < |s| && s[i] == x == s[j]
  {
    var n := |s| - 1;
    assert s == s[..n] + [s[n]];
    if multiset(s[..n])[x] >= 2 {
      i, j := TwiceIsTwoPlaces(s[..n], x);
    } else {
      assert x in s[..n];
      i :| 0 <= i < n && s[..n][i] == x;
      j := n;
    }
  }

  /** A module with a provider that is expanded twice makes the resolver refuse the graph. */
  lemma DoubleIncludeIsAmbiguous(vars: Vars, items: seq<Item>, n: string, provider: Provider)
    requires Flatten(vars, items, {}).Ok? && Expansions(vars, items, {}, n) >= 2
    requires n in vars && Provides(Items(vars[n]), provider)
    ensures !DistinctProviders(Flatten(vars, items, {}).value.providers)
  {
    ProvidersRepeat(vars, items, {}, n, provider);
    var ps := Flatten(vars, items, {}).value.providers;
    var i, j := TwiceIsTwoPlaces(ps, provider);
    assert ps[i].result.key == ps[j].result.key;
  }

  // ---------------------------------------------------------------- the loader

  lemma {:induction false} ItemsPrefix(options: seq<GraphOption>, k: nat)
    requires k <= |options|
    ensures ItemsOf(options[..k]) <= ItemsOf(options)
  {
    if k == |options| {
      assert options[..k] == options;
    } else {
      var init := options[..|options| - 1];
      ItemsPrefix(init, k);
      assert init[..k] == options[..k];
    }
  }

  /** An error among the first items is the error of the whole. */
  lemma ErrorStays(vars: Vars, a: seq<Item>, all: seq<Item>, seen: set<string>)
    requires Flatten(vars, a, seen).Err? && a <= all
    ensures Flatten(vars, all, seen) == Flatten(vars, a, seen)
  {
    assert all == a + all[|a|..];
    FlattenConcat(vars, a, all[|a|..], seen);
  }

  lemma OneMoreItem(vars: Vars, items: seq<Item>, j: nat, seen: set<string>)
    requires j < |items| && Flatten(vars, items[..j], seen).Ok?
    ensures var q := FlattenItem(vars, items[j], seen);
      if q.Ok?
      then Flatten(vars, items[..j + 1], seen) == Ok(Append(Flatten(vars, items[..j], seen).value, q.value))
      else Flatten(vars, items, seen) == q
  {
    assert items[..j + 1] == items[..j] + [items[j]] && items == items[..j + 1] + items[j + 1..];
    FlattenOne(vars, items[j], seen);
    FlattenConcat(vars, items[..j], [items[j]], seen);
    FlattenConcat(vars, items[..j + 1], items[j + 1..], seen);
  }

  class Loader {
    const vars: Vars
    var model: Graph

    constructor (vars: Vars)
      ensures this.vars == vars && model == EMPTY
    {
      this.vars, model := vars, EMPTY;
    }

    /** The loop over the arguments of one Include. */
    method MergeIncludes(args: seq<Arg>, seen: set<string>) returns (r: Result<(), LoadError>)
      modifies this
      ensures var q := Flatten(vars, OptionItems(Include(args)), seen);
        if r.Ok? then q.Ok? && model == Append(old(model), q.value) && Follows(model, old(model), q.value)
        else q == Err(r.error)
      decreases |vars.Keys - seen|, 1
    {
      ghost var items := OptionItems(Include(args));
      AppendAssociative(model, EMPTY, EMPTY);
      for j := 0 to |args|
        invariant Flatten(vars, items[..j], seen).Ok?
        invariant model == Append(old(model), Flatten(vars, items[..j], seen).value)
      {
        ghost var before, sofar := model, Flatten(vars, items[..j], seen).value;
        assert items[j] == ArgItem(args[j]);
        OneMoreItem(vars, items, j, seen);
        var q := MergeArg(args[j], seen);
        if q.Err? {
          return Err(q.error);
        }
        AppendAssociative(old(model), sofar, FlattenItem(vars, items[j], seen).value);
      }
      assert items[..|args|] == items;
      r := Ok(());
    }

    method MergeArg(arg: Arg, seen: set<string>) returns (r: Result<(), LoadError>)
      modifies this
      ensures var q := FlattenItem(vars, ArgItem(arg), seen);
        if r.Ok? then q.Ok? && model == Append(old(model), q.value) else q == Err(r.error)
      ensures arg.OtherExpr? ==> r == Err(NotAnIdentifier)
      ensures arg.Ident? && arg.name in seen ==> r == Err(IncludeCycle(arg.name))
      ensures arg.Ident? && arg.name !in seen && arg.name !in vars ==> r == Err(ModuleNotFound(arg.name))
      decreases |vars.Keys - seen|, 0
    {
      if arg.OtherExpr? {
        return Err(NotAnIdentifier);
      }
      var name := arg.name;
      if name in seen {
        return Err(IncludeCycle(name));
      }
      if name !in vars {
        return Err(ModuleNotFound(name));
      }
      Deeper(vars, seen, name);
      r := MergeGraphExpr(vars[name], seen + {name});
    }

    /** Merges one option into the model; `done` is what the call before it amounts to. */
    method MergeOption(option: GraphOption, seen: set<string>) returns (r: Result<(), LoadError>)
      modifies this
      ensures r.Ok? <==> Flatten(vars, OptionItems(option), seen).Ok?
      ensures r.Ok? ==> model == Append(old(model), Flatten(vars, OptionItems(option), seen).value)
      ensures r.Err? ==> Flatten(vars, OptionItems(option), seen) == Err(r.error)
      ensures option.Malformed? ==> r == Err(BadOption)
      decreases |vars.Keys - seen|, 2
    {
      var items := OptionItems(option);
      match option
      case Malformed =>
        FlattenOne(vars, items[0], seen);
        r := Err(BadOption);
      case Declares(g) =>
        FlattenOne(vars, items[0], seen);
        model := Append(model, g);
        r := Ok(());
      case Include(args) =>
        r := MergeIncludes(args, seen);
    }

    method MergeGraphExpr(expr: Expr, seen: set<string>) returns (r: Result<(), LoadError>)
      modifies this
      ensures r.Ok? <==> Flatten(vars, Items(expr), seen).Ok?
      ensures r.Ok? ==> model == Append(old(model), Flatten(vars, Items(expr), seen).value)
      ensures r.Ok? ==> Follows(model, old(model), Flatten(vars, Items(expr), seen).value)
      ensures r.Err? ==> Flatten(vars, Items(expr), seen) == Err(r.error)
      ensures expr.NotAGraph? ==> r == Err(NotDI)
      decreases |vars.Keys - seen|, 3
    {
      if expr.NotAGraph? {
        FlattenOne(vars, Bad(NotDI), seen);
        return Err(NotDI);
      }
      var options := expr.options;
      AppendAssociative(model, EMPTY, EMPTY);
      for i := 0 to |options|
        invariant Flatten(vars, ItemsOf(options[..i]), seen).Ok?
        invariant model == Append(old(model), Flatten(vars, ItemsOf(options[..i]), seen).value)
      {
        ghost var done, items := ItemsOf(options[..i]), OptionItems(options[i]);
        assert options[..i + 1][..i] == options[..i];
        FlattenConcat(vars, done, items, seen);
        ItemsPrefix(options, i + 1);
        var q := MergeOption(options[i], seen);
        if q.Err? {
          ErrorStays(vars, done + items, ItemsOf(options), seen);
          return Err(q.error);
        }
        AppendAssociative(old(model), Flatten(vars, done, seen).value, Flatten(vars, items, seen).value);
      }
      assert options[..|options|] == options;
      AppendFollows(old(model), Flatten(vars, ItemsOf(options), seen).value);
      return Ok(());
    }
  }

  lemma OnlyGraphs(vars: Vars, e: Expr)
    ensures e.NotAGraph? ==> Flatten(vars, Items(e), {}) == Err(NotDI)
  {
    FlattenOne(vars, Bad(NotDI), {});
  }

  /** The expanded graph is the depth-first, left-to-right substitution of the includes. */
  method ParseGraph(vars: Vars, name: string) returns (r: Result<Graph, LoadError>)
    ensures r.Ok? <==> name in vars && Expandable(vars, Items(vars[name]), {})
    ensures name !in vars ==> r == Err(GraphNotFound(name))
    ensures r.Ok? ==> r == Flatten(vars, Items(vars[name]), {})
    ensures r.Ok? ==> vars[name].GraphCall? && KeepsOrder(vars, vars[name].options, r.value)
    ensures name in vars && r.Err? ==> r == Flatten(vars, Items(vars[name]), {})
  {
    if name !in vars {
      return Err(GraphNotFound(name));
    }
    ExpandableIff(vars, Items(vars[name]), {});
    var loader := new Loader(vars);
    var q := loader.MergeGraphExpr(vars[name], {});
    if q.Err? {
      return Err(q.error);
    }
    r := Ok(loader.model);
    OnlyGraphs(vars, vars[name]);
    ExpansionKeepsOrder(vars, vars[name].options);
    AppendAssociative(Flatten(vars, Items(vars[name]), {}).value, EMPTY, EMPTY);
  }
}
