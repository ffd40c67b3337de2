/**
 What the emitted Build function does: every provider, invoke and output gets the value of its
 resolved source, and a failure runs the registered cleanups once, last first.
 */
module DiEmitter {
  import opened Collections
  import opened DiModel
  import opened DiNames
  import opened DiResolver
  import opened DiPlan
  import opened DiIntent

  // ---------------------------------------------------------------- the values meant

  lemma IndexIs(env: Env, order: seq<Node>, k: Key, i: nat)
    requires Topological(env, order) && i < |order| && KeyOf(order[i]) == k
    ensures k in KeysOf(order) && IndexOf(order, k) == i
  {
    var j := IndexOf(order, k);
    if j < i { SamePosition(env, order, j, i); } else { SamePosition(env, order, i, j); }
  }

  // ---------------------------------------------------------------- locals

  ghost predicate GoodLocals(env: Env, l: Locals, r: Resolved) {
    && l.inputs.Keys == env.inputs.Keys && l.providers.Keys == KeysOf(r.order)
    && Injective(l.inputs) && Injective(l.providers) && Avoids(l.providers, l.inputs.Values)
    && Avoids(l.inputs, HELPERS) && Avoids(l.providers, HELPERS)
  }

  /** The local for the result of provider t. */
  function LocalOf(l: Locals, r: Resolved, t: nat): string
    requires t < |r.order|
  {
    if KeyOf(r.order[t]) in l.providers then l.providers[KeyOf(r.order[t])] else ""
  }

  /** The local for the cleanup of provider t. */
  function CleanupOf(l: Locals, r: Resolved, t: nat): string
    requires t < |r.order|
  {
    MakeCleanupName(r.order[t].ref.result, LocalOf(l, r, t))
  }

  /** The emitted call is the intended one: its function, its arguments, its results and their locals. */
  lemma CallIs(l: Locals, r: Resolved, t: nat)
    requires t < CallCount(r)
    ensures var c := Calls(l, r)[t];
      && c.fn == FnOf(r, t) && c.deps == DepsOf(r, t)
      && (ReturnsErr(c.sig) <==> CanFail(r, t)) && (c.sig.WithCleanup? <==> HasCleanup(r, t))
      && (t < |r.order| ==> c.v == LocalOf(l, r, t) && c.c == CleanupOf(l, r, t))
      && (c.sig.ErrOnly? || c.sig.NoResult? <==> t >= |r.order|)
  {
  }

  /** Some provider in [a, b) assigns its cleanup to x. */
  ghost predicate Hit(l: Locals, r: Resolved, x: string, a: nat, b: nat) {
    exists i :: a <= i < b && i < |r.order| && r.order[i].ref.hasCleanup && CleanupOf(l, r, i) == x
  }

  /**
   The read of dependency d after t calls finds what was resolved: the name does not stand for
   an input of the same type, and no later cleanup variable has taken the name.
   */
  ghost predicate CleanRead(env: Env, l: Locals, r: Resolved, t: nat, d: Dep) {
    var k := d.source.key;
    if k in env.inputs then TargetOf(env, d.requested.key).FromInput? && !Hit(l, r, ReferenceName(l, k), 0, t)
    else k in KeysOf(r.order) && !Hit(l, r, ReferenceName(l, k), IndexOf(r.order, k), t)
  }

  ghost predicate CleanCall(env: Env, l: Locals, r: Resolved, t: nat)
    requires t < CallCount(r)
  {
    forall j :: 0 <= j < |DepsOf(r, t)| ==> CleanRead(env, l, r, t, DepsOf(r, t)[j])
  }

  // ---------------------------------------------------------------- what resolution gave

  ghost predicate Keyed(env: Env) {
    WellKeyed(env) && forall k :: k in env.inputs ==> env.inputs[k].key == k
  }

  ghost predicate DepOk(env: Env, built: set<Key>, d: Dep) {
    d.source == SourceOf(env, d.requested) && Available(env, built, d.requested.key)
  }

  ghost predicate Setup(env: Env, l: Locals, r: Resolved) {
    && Keyed(env) && Topological(env, r.order) && GoodLocals(env, l, r)
    && (forall i :: 0 <= i < |r.outputs| ==> DepOk(env, KeysOf(r.order), OutputDep(r.outputs[i])))
    && (forall i, j :: 0 <= i < |r.invokes| && 0 <= j < |r.invokes[i].deps| ==>
        DepOk(env, KeysOf(r.order), r.invokes[i].deps[j]))
  }

  lemma CallDeps(env: Env, l: Locals, r: Resolved, t: nat, j: nat)
    requires Setup(env, l, r) && t < CallCount(r) && j < |DepsOf(r, t)|
    ensures DepOk(env, KeysOf(Before(r, t)), DepsOf(r, t)[j])
  {
    if t < |r.order| {
      assert NodeOk(env, KeysOf(r.order[..t]), r.order[t]);
    }
  }

  lemma ProviderLocal(env: Env, l: Locals, r: Resolved, t: nat)
    requires Setup(env, l, r) && t < |r.order|
    ensures var x := LocalOf(l, r, t);
      && KeyOf(r.order[t]) in l.providers && x == l.providers[KeyOf(r.order[t])] && x !in HELPERS
      && (forall k :: k in l.inputs ==> l.inputs[k] != x)
      && (forall i :: 0 <= i < |r.order| && i != t ==> LocalOf(l, r, i) != x)
  {
    assert KeyOf(r.order[t]) in KeysOf(r.order);
    forall i | 0 <= i < |r.order| && i != t
      ensures LocalOf(l, r, i) != LocalOf(l, r, t)
    {
      assert KeyOf(r.order[i]) in KeysOf(r.order);
      if KeyOf(r.order[i]) == KeyOf(r.order[t]) {
        if i < t { SamePosition(env, r.order, i, t); } else { SamePosition(env, r.order, t, i); }
      }
    }
  }

  lemma CleanupIsNotErr(l: Locals, r: Resolved, t: nat)
    requires t < |r.order|
    ensures CleanupOf(l, r, t) != "err"
  {
    assert |CleanupOf(l, r, t)| >= |"cleanup"|;
  }

  // ---------------------------------------------------------------- the state after t calls

  ghost predicate Started(l: Locals, m: Machine) {
    && m.stack == [] && m.log == [] && m.app == map[]
    && forall k :: k in l.inputs ==> l.inputs[k] in m.store && m.store[l.inputs[k]] == In(k)
  }

  /** A local holds its value, or a cleanup if some cleanup variable has taken its name. */
  ghost predicate Holds(l: Locals, r: Resolved, store: map<string, Value>, x: string, a: nat, t: nat, want: Value) {
    x in store && if Hit(l, r, x, a, t) then store[x].Cleanup? || store[x].Nil? else store[x] == want
  }

  ghost predicate StoreOk(env: Env, l: Locals, r: Resolved, t: nat, m: Machine) {
    && |m.log| == t
    && (forall k :: k in env.inputs ==> k in l.inputs && Holds(l, r, m.store, l.inputs[k], 0, t, In(k)))
    && (forall j :: 0 <= j < t && j < |r.order| ==>
          m.log[j].Made? && Holds(l, r, m.store, LocalOf(l, r, j), j, t, m.log[j]))
  }

  lemma HitGrows(l: Locals, r: Resolved, x: string, a: nat, t: nat)
    requires a <= t
    ensures Hit(l, r, x, a, t + 1) <==> Hit(l, r, x, a, t) || (HasCleanup(r, t) && CleanupOf(l, r, t) == x)
  {
  }

  /** A call writes err, its result and its cleanup, and no other local. */
  lemma StoreKeeps(store: map<string, Value>, call: Call, w: World, c: nat, v: Value, x: string)
    requires x in store && x != "err" && (call.sig.Plain? || call.sig.WithErr? || call.sig.WithCleanup? ==> x != call.v)
    ensures var after := StoreAfter(store, call, w, c, v);
      x in after && after[x] == if call.sig.WithCleanup? && call.c == x then CleanupValue(w, c) else store[x]
  {
  }

  lemma HoldsNext(l: Locals, r: Resolved, t: nat, store: map<string, Value>, w: World, v: Value, x: string,
                  a: nat, want: Value)
    requires t < CallCount(r) && a <= t && Holds(l, r, store, x, a, t, want)
    requires x != "err" && (t < |r.order| ==> x != LocalOf(l, r, t))
    ensures Holds(l, r, StoreAfter(store, Calls(l, r)[t], w, t, v), x, a, t + 1, want)
  {
    HitGrows(l, r, x, a, t);
    CallIs(l, r, t);
    StoreKeeps(store, Calls(l, r)[t], w, t, v, x);
  }

  lemma StoreNext(env: Env, l: Locals, r: Resolved, t: nat, m: Machine, w: World)
    requires Setup(env, l, r) && t < CallCount(r) && StoreOk(env, l, r, t, m)
    requires AfterCall(l, Calls(l, r)[t], m, w).Running?
    ensures StoreOk(env, l, r, t + 1, AfterCall(l, Calls(l, r)[t], m, w).m)
  {
    var call := Calls(l, r)[t];
    var m' := AfterCall(l, call, m, w).m;
    var v := m'.log[t];
    assert m'.store == StoreAfter(m.store, call, w, t, v);
    CallIs(l, r, t);
    if t < |r.order| { ProviderLocal(env, l, r, t); }
    forall k | k in env.inputs
      ensures Holds(l, r, m'.store, l.inputs[k], 0, t + 1, In(k))
    {
      assert l.inputs[k] !in HELPERS;
      HoldsNext(l, r, t, m.store, w, v, l.inputs[k], 0, In(k));
    }
    forall j | 0 <= j < t && j < |r.order|
      ensures Holds(l, r, m'.store, LocalOf(l, r, j), j, t + 1, m'.log[j])
    {
      ProviderLocal(env, l, r, j);
      HoldsNext(l, r, t, m.store, w, v, LocalOf(l, r, j), j, m.log[j]);
    }
    if t < |r.order| {
      HitGrows(l, r, call.v, t, t);
    }
  }

  // ---------------------------------------------------------------- what a read finds

  lemma SourceKey(env: Env, t: TypeRef)
    requires Keyed(env)
    ensures match TargetOf(env, t.key)
      case FromInput => t.key in env.inputs && SourceOf(env, t).key == t.key
      case FromProvider(q) => SourceOf(env, t).key == q
      case Missing => true
  {
  }

  lemma BeforeIndex(env: Env, r: Resolved, t: nat, q: Key)
    requires Topological(env, r.order) && q in KeysOf(Before(r, t))
    ensures var j := IndexOf(Before(r, t), q);
      && j < t && j < |r.order| && Before(r, t)[j] == r.order[j] && Before(r, t)[..j] == r.order[..j]
      && q in KeysOf(r.order) && IndexOf(r.order, q) == j
  {
    var j := IndexOf(Before(r, t), q);
    IndexIs(env, r.order, q, j);
  }

  /** Every read finds a value; it is the value meant exactly when the read is clean. */
  lemma ReadFinds(env: Env, l: Locals, r: Resolved, t: nat, d: Dep, m: Machine)
    requires Setup(env, l, r) && t <= CallCount(r) && StoreOk(env, l, r, t, m)
    requires DepOk(env, KeysOf(Before(r, t)), d)
    ensures ReferenceName(l, d.source.key) in m.store
    ensures LogMeant(env, r, t, m.log) ==>
      (CleanRead(env, l, r, t, d) <==> m.store[ReferenceName(l, d.source.key)] == DepValue(env, Before(r, t), d))
  {
    SourceKey(env, d.requested);
    var k := d.source.key;
    if TargetOf(env, d.requested.key).FromProvider? {
      BeforeIndex(env, r, t, k);
      var j := IndexOf(Before(r, t), k);
      ProviderLocal(env, l, r, j);
      assert DepValue(env, Before(r, t), d) == CallValue(env, r.order[..j], r.order[j].ref.expr, r.order[j].deps);
      assert LogMeant(env, r, t, m.log) ==> m.log[j] == Meant(env, r, j);
    }
  }

  lemma CallReads(env: Env, l: Locals, r: Resolved, t: nat, m: Machine, w: World)
    requires Setup(env, l, r) && t < CallCount(r) && StoreOk(env, l, r, t, m)
    ensures AllSet(m.store, Args(l, DepsOf(r, t)))
    ensures LogMeant(env, r, t, m.log) ==>
      (CleanCall(env, l, r, t) <==>
         Made(FnOf(r, t), Read(m.store, Args(l, DepsOf(r, t)))) == Meant(env, r, t))
  {
    var deps := DepsOf(r, t);
    forall j | 0 <= j < |deps|
      ensures ReferenceName(l, deps[j].source.key) in m.store
      ensures LogMeant(env, r, t, m.log) ==>
        (CleanRead(env, l, r, t, deps[j]) <==>
          m.store[ReferenceName(l, deps[j].source.key)] == DepValue(env, Before(r, t), deps[j]))
    {
      CallDeps(env, l, r, t, j);
      ReadFinds(env, l, r, t, deps[j], m);
    }
    var found, meant := Read(m.store, Args(l, deps)), Meant(env, r, t).args;
    assert |found| == |deps| == |meant|;
    assert forall j :: 0 <= j < |deps| ==> found[j] == m.store[ReferenceName(l, deps[j].source.key)];
    assert forall j :: 0 <= j < |deps| ==> meant[j] == DepValue(env, Before(r, t), deps[j]);
    assert found == meant <==> forall j :: 0 <= j < |deps| ==> found[j] == meant[j];
  }

  // ---------------------------------------------------------------- the run up to the first failure

  ghost predicate Reached(env: Env, l: Locals, r: Resolved, t: nat, m0: Machine, w: World)
    requires t <= CallCount(r)
  {
    var s := After(l, Calls(l, r), t, m0, w);
    s.Running? && StoreOk(env, l, r, t, s.m) && s.m.stack == StackOf(r, t, w) && s.m.app == map[]
  }

  lemma ReachesStart(env: Env, l: Locals, r: Resolved, m: Machine, w: World)
    requires Setup(env, l, r) && Started(l, m)
    ensures Reached(env, l, r, 0, m, w)
  {
    assert forall k :: k in env.inputs ==> !Hit(l, r, l.inputs[k], 0, 0);
  }

  lemma ReachesNext(env: Env, l: Locals, r: Resolved, t: nat, m: Machine, w: World)
    requires Setup(env, l, r) && t < FirstFail(r, w, 0) && Reached(env, l, r, t, m, w)
    ensures Reached(env, l, r, t + 1, m, w)
  {
    var before := After(l, Calls(l, r), t, m, w).m;
    CallIs(l, r, t);
    assert !Fails(r, w, t) && !FailsAt(w, Calls(l, r)[t].sig, t);
    CallReads(env, l, r, t, before, w);
    StoreNext(env, l, r, t, before, w);
  }

  /** No read fails, so only a failing call stops the run. */
  lemma {:induction false} RunReaches(env: Env, l: Locals, r: Resolved, t: nat, m: Machine, w: World)
    requires Setup(env, l, r) && Started(l, m) && t <= FirstFail(r, w, 0)
    ensures Reached(env, l, r, t, m, w)
    decreases t
  {
    if t == 0 {
      ReachesStart(env, l, r, m, w);
    } else {
      RunReaches(env, l, r, t - 1, m, w);
      ReachesNext(env, l, r, t - 1, m, w);
    }
  }

  lemma LogOneMore(env: Env, l: Locals, r: Resolved, t: nat, before: seq<Value>, v: Value)
    requires t < CallCount(r) && |before| == t
    ensures LogMeant(env, r, t + 1, before + [v]) <==> LogMeant(env, r, t, before) && v == Meant(env, r, t)
  {
    var log := before + [v];
    assert log[..t] == before && log[t] == v;
    if LogMeant(env, r, t + 1, log) {
      forall i | 0 <= i < t
        ensures before[i] == Meant(env, r, i)
      {
        assert log[i] == before[i];
      }
    }
  }

  /** The arguments of the calls so far are the ones meant. */
  ghost predicate MeantSoFar(env: Env, l: Locals, r: Resolved, t: nat, m: Machine, w: World)
    requires t <= CallCount(r)
  {
    var s := After(l, Calls(l, r), t, m, w);
    s.Running? && LogMeant(env, r, t, s.m.log)
  }

  lemma LogNext(env: Env, l: Locals, r: Resolved, t: nat, m: Machine, w: World)
    requires Setup(env, l, r) && t < FirstFail(r, w, 0) && Reached(env, l, r, t, m, w)
    ensures Reached(env, l, r, t + 1, m, w)
    ensures MeantSoFar(env, l, r, t + 1, m, w) <==> MeantSoFar(env, l, r, t, m, w) && CleanCall(env, l, r, t)
  {
    ReachesNext(env, l, r, t, m, w);
    var before := After(l, Calls(l, r), t, m, w).m;
    var log := After(l, Calls(l, r), t + 1, m, w).m.log;
    CallIs(l, r, t);
    CallReads(env, l, r, t, before, w);
    assert log == before.log + [log[t]];
    LogOneMore(env, l, r, t, before.log, log[t]);
  }

  ghost predicate CleanBefore(env: Env, l: Locals, r: Resolved, t: nat)
    requires t <= CallCount(r)
  {
    forall i :: 0 <= i < t ==> CleanCall(env, l, r, i)
  }

  lemma CleanOneMore(env: Env, l: Locals, r: Resolved, t: nat)
    requires t < CallCount(r)
    ensures CleanBefore(env, l, r, t + 1) <==> CleanBefore(env, l, r, t) && CleanCall(env, l, r, t)
  {
  }

  /** The state is the expected one, and the arguments are those meant exactly when all reads were clean. */
  ghost predicate OnCourse(env: Env, l: Locals, r: Resolved, t: nat, m: Machine, w: World)
    requires t <= CallCount(r)
  {
    Reached(env, l, r, t, m, w) && (MeantSoFar(env, l, r, t, m, w) <==> CleanBefore(env, l, r, t))
  }

  lemma CourseBegins(env: Env, l: Locals, r: Resolved, m: Machine, w: World)
    requires Setup(env, l, r) && Started(l, m)
    ensures OnCourse(env, l, r, 0, m, w)
  {
    ReachesStart(env, l, r, m, w);
  }

  lemma CourseNext(env: Env, l: Locals, r: Resolved, t: nat, m: Machine, w: World)
    requires Setup(env, l, r) && t < FirstFail(r, w, 0) && OnCourse(env, l, r, t, m, w)
    ensures OnCourse(env, l, r, t + 1, m, w)
  {
    LogNext(env, l, r, t, m, w);
    CleanOneMore(env, l, r, t);
  }

  lemma {:induction false} CourseKept(env: Env, l: Locals, r: Resolved, t: nat, m: Machine, w: World)
    requires t <= CallCount(r) && OnCourse(env, l, r, 0, m, w)
    requires forall i: nat :: i < t && OnCourse(env, l, r, i, m, w) ==> OnCourse(env, l, r, i + 1, m, w)
    ensures OnCourse(env, l, r, t, m, w)
  {
    if t > 0 { CourseKept(env, l, r, t - 1, m, w); }
  }

  /** The calls get the arguments meant exactly when all their reads are clean. */
  lemma LogMeantIff(env: Env, l: Locals, r: Resolved, t: nat, m: Machine, w: World)
    requires Setup(env, l, r) && Started(l, m) && t <= FirstFail(r, w, 0)
    ensures OnCourse(env, l, r, t, m, w)
  {
    CourseBegins(env, l, r, m, w);
    forall i: nat | i < t && OnCourse(env, l, r, i, m, w)
      ensures OnCourse(env, l, r, i + 1, m, w)
    {
      CourseNext(env, l, r, i, m, w);
    }
    CourseKept(env, l, r, t, m, w);
  }

  // ---------------------------------------------------------------- the end of the run

  /** Every registered cleanup runs, in reverse order. */
  lemma {:induction false} CleanupsReverse(r: Resolved, t: nat, w: World)
    requires t <= CallCount(r)
    ensures RunCleanups(StackOf(r, t, w)) == Reversed(StackOf(r, t, w))
  {
    if t > 0 {
      CleanupsReverse(r, t - 1, w);
      var before := StackOf(r, t - 1, w);
      if HasCleanup(r, t - 1) && t - 1 !in w.nils {
        assert (before + [Cleanup(t - 1)])[..|before|] == before;
      } else {
        assert StackOf(r, t, w) == before;
      }
    }
  }

  lemma {:induction false} StaysReturned(l: Locals, calls: seq<Call>, s: nat, t: nat, m: Machine, w: World)
    requires s <= t <= |calls| && !After(l, calls, s, m, w).Running?
    ensures After(l, calls, t, m, w) == After(l, calls, s, m, w)
  {
    if s < t { StaysReturned(l, calls, s, t - 1, m, w); }
  }

  /** What the failing call leaves. */
  lemma FailingCall(env: Env, l: Locals, r: Resolved, n: nat, m: Machine, w: World)
    requires Setup(env, l, r) && n < CallCount(r) && StoreOk(env, l, r, n, m) && Fails(r, w, n)
    ensures
      var s := AfterCall(l, Calls(l, r)[n], m, w);
      && s.Returned? && s.ran == RunCleanups(m.stack) && s.err == Error(n)
      && (LogMeant(env, r, n + 1, s.log) <==> LogMeant(env, r, n, m.log) && CleanCall(env, l, r, n))
  {
    CallIs(l, r, n);
    CallReads(env, l, r, n, m, w);
    var v := Made(FnOf(r, n), Read(m.store, Args(l, DepsOf(r, n))));
    LogOneMore(env, l, r, n, m.log, v);
  }

  ghost predicate FailedWith(env: Env, l: Locals, r: Resolved, n: nat, w: World, s: Status)
    requires n < CallCount(r)
  {
    && s.Returned? && s.ran == Reversed(StackOf(r, n, w)) && s.err == Error(n)
    && (LogMeant(env, r, n + 1, s.log) <==>
          CleanBefore(env, l, r, n) && CleanCall(env, l, r, n))
  }

  lemma FailureAt(env: Env, l: Locals, r: Resolved, n: nat, m: Machine, w: World)
    requires Setup(env, l, r) && Started(l, m) && n < CallCount(r) && n == FirstFail(r, w, 0)
    ensures FailedWith(env, l, r, n, w, After(l, Calls(l, r), n + 1, m, w))
  {
    var calls := Calls(l, r);
    LogMeantIff(env, l, r, n, m, w);
    var before := After(l, calls, n, m, w).m;
    assert After(l, calls, n + 1, m, w) == AfterCall(l, calls[n], before, w);
    FailingCall(env, l, r, n, before, w);
    CleanupsReverse(r, n, w);
  }

  lemma FailedStays(env: Env, l: Locals, r: Resolved, n: nat, m: Machine, w: World)
    requires n < CallCount(r) && FailedWith(env, l, r, n, w, After(l, Calls(l, r), n + 1, m, w))
    ensures After(l, Calls(l, r), CallCount(r), m, w) == After(l, Calls(l, r), n + 1, m, w)
  {
    StaysReturned(l, Calls(l, r), n + 1, CallCount(r), m, w);
  }

  // ---------------------------------------------------------------- the fields of App

  function OutputsRead(l: Locals, outputs: seq<ResolvedOutput>, i: nat, store: map<string, Value>): map<string, Value>
    requires i <= |outputs|
    requires forall j :: 0 <= j < |outputs| ==> ReferenceName(l, outputs[j].source.key) in store
  {
    if i == 0 then map[]
    else
      var o := outputs[i - 1];
      OutputsRead(l, outputs, i - 1, store)[o.field := store[ReferenceName(l, o.source.key)]]
  }

  lemma {:induction false} RunFields(l: Locals, outputs: seq<ResolvedOutput>, i: nat, m: Machine, w: World)
    requires i <= |outputs| && m.app == map[]
    requires forall j :: 0 <= j < |outputs| ==> ReferenceName(l, outputs[j].source.key) in m.store
    ensures Run(FieldSteps(l, outputs)[..i], m, w) == Running(m.(app := OutputsRead(l, outputs, i, m.store)))
  {
    if i > 0 {
      RunFields(l, outputs, i - 1, m, w);
      assert FieldSteps(l, outputs)[..i][..i - 1] == FieldSteps(l, outputs)[..i - 1];
    }
  }

  ghost predicate DistinctFields(outputs: seq<ResolvedOutput>) {
    forall i, j :: 0 <= i < j < |outputs| ==> outputs[i].field != outputs[j].field
  }

  ghost predicate OutputsAgree(env: Env, l: Locals, r: Resolved, i: nat, store: map<string, Value>)
    requires i <= |r.outputs|
    requires forall j :: 0 <= j < |r.outputs| ==> ReferenceName(l, r.outputs[j].source.key) in store
  {
    forall j :: 0 <= j < i ==>
      store[ReferenceName(l, r.outputs[j].source.key)] == DepValue(env, r.order, OutputDep(r.outputs[j]))
  }

  lemma {:induction false} OutputKeys(env: Env, l: Locals, r: Resolved, i: nat, store: map<string, Value>, f: string)
    requires i <= |r.outputs|
    requires forall j :: 0 <= j < |r.outputs| ==> ReferenceName(l, r.outputs[j].source.key) in store
    ensures f in OutputsRead(l, r.outputs, i, store) <==> exists j :: 0 <= j < i && r.outputs[j].field == f
    ensures f in OutputsMeant(env, r, i) <==> exists j :: 0 <= j < i && r.outputs[j].field == f
  {
    if i > 0 { OutputKeys(env, l, r, i - 1, store, f); }
  }

  lemma {:induction false} SameOutputs(env: Env, l: Locals, r: Resolved, i: nat, store: map<string, Value>)
    requires i <= |r.outputs|
    requires forall j :: 0 <= j < |r.outputs| ==> ReferenceName(l, r.outputs[j].source.key) in store
    requires OutputsAgree(env, l, r, i, store)
    ensures OutputsRead(l, r.outputs, i, store) == OutputsMeant(env, r, i)
  {
    if i > 0 { SameOutputs(env, l, r, i - 1, store); }
  }

  /** With distinct field names the fields show every read. */
  lemma {:induction false} FieldsShow(env: Env, l: Locals, r: Resolved, i: nat, store: map<string, Value>)
    requires i <= |r.outputs| && DistinctFields(r.outputs)
    requires forall j :: 0 <= j < |r.outputs| ==> ReferenceName(l, r.outputs[j].source.key) in store
    requires OutputsRead(l, r.outputs, i, store) == OutputsMeant(env, r, i)
    ensures OutputsAgree(env, l, r, i, store)
  {
    if i > 0 {
      var f := r.outputs[i - 1].field;
      OutputKeys(env, l, r, i - 1, store, f);
      var a, b := OutputsRead(l, r.outputs, i - 1, store), OutputsMeant(env, r, i - 1);
      var x, y := store[ReferenceName(l, r.outputs[i - 1].source.key)],
        DepValue(env, r.order, OutputDep(r.outputs[i - 1]));
      SameButOne(a, b, f, x, y);
      FieldsShow(env, l, r, i - 1, store);
    }
  }

  lemma SameButOne(a: map<string, Value>, b: map<string, Value>, f: string, x: Value, y: Value)
    requires f !in a && f !in b && a[f := x] == b[f := y]
    ensures a == b && x == y
  {
    assert x == a[f := x][f] == b[f := y][f] == y;
    assert a == a[f := x] - {f} && b == b[f := y] - {f};
  }

  // ---------------------------------------------------------------- main results

  /** No read anywhere is misdirected. */
  ghost predicate Faithful(env: Env, l: Locals, r: Resolved) {
    && CleanBefore(env, l, r, CallCount(r))
    && (forall i :: 0 <= i < |r.outputs| ==> CleanRead(env, l, r, CallCount(r), OutputDep(r.outputs[i])))
  }

  lemma ProgramIsCalls(l: Locals, r: Resolved, m: Machine, w: World)
    ensures var s := After(l, Calls(l, r), CallCount(r), m, w);
      Run(Program(l, r), m, w) == if s.Running? then Run(FieldSteps(l, r.outputs), s.m, w) else s
  {
    var calls := Calls(l, r);
    forall i | 0 <= i < |calls| && calls[i].sig.WithCleanup?
      ensures calls[i].c != "err"
    {
      CallIs(l, r, i);
      CleanupIsNotErr(l, r, i);
    }
    StepsAreCalls(l, calls, |calls|, m, w);
    assert calls[..|calls|] == calls;
    RunConcat(Steps(l, calls), FieldSteps(l, r.outputs), m, w);
  }

  /** A failing call ends Build with its error, after the cleanups registered before it. */
  lemma FailureReturns(env: Env, l: Locals, r: Resolved, m: Machine, w: World)
    requires Setup(env, l, r) && Started(l, m) && FirstFail(r, w, 0) < CallCount(r)
    ensures FailedWith(env, l, r, FirstFail(r, w, 0), w, Run(Program(l, r), m, w))
  {
    var n := FirstFail(r, w, 0);
    FailureAt(env, l, r, n, m, w);
    FailedStays(env, l, r, n, m, w);
    ProgramIsCalls(l, r, m, w);
  }

  /** After all calls every output finds a value: the one meant exactly when the read is clean. */
  lemma OutputsFound(env: Env, l: Locals, r: Resolved, m: Machine)
    requires Setup(env, l, r) && StoreOk(env, l, r, CallCount(r), m)
    ensures forall j :: 0 <= j < |r.outputs| ==> ReferenceName(l, r.outputs[j].source.key) in m.store
    ensures LogMeant(env, r, CallCount(r), m.log) ==>
      (OutputsAgree(env, l, r, |r.outputs|, m.store) <==>
         forall i :: 0 <= i < |r.outputs| ==> CleanRead(env, l, r, CallCount(r), OutputDep(r.outputs[i])))
  {
    var n := CallCount(r);
    assert Before(r, n) == r.order by { assert r.order[..|r.order|] == r.order; }
    forall i | 0 <= i < |r.outputs|
      ensures ReferenceName(l, r.outputs[i].source.key) in m.store
      ensures LogMeant(env, r, n, m.log) ==>
        (CleanRead(env, l, r, n, OutputDep(r.outputs[i])) <==>
           m.store[ReferenceName(l, r.outputs[i].source.key)] == DepValue(env, r.order, OutputDep(r.outputs[i])))
    {
      ReadFinds(env, l, r, n, OutputDep(r.outputs[i]), m);
    }
  }

  lemma FieldsFilled(l: Locals, r: Resolved, m: Machine, w: World)
    requires var s := After(l, Calls(l, r), CallCount(r), m, w);
      && s.Running? && s.m.app == map[]
      && forall j :: 0 <= j < |r.outputs| ==> ReferenceName(l, r.outputs[j].source.key) in s.m.store
    ensures var m' := After(l, Calls(l, r), CallCount(r), m, w).m;
      Run(Program(l, r), m, w) == Running(m'.(app := OutputsRead(l, r.outputs, |r.outputs|, m'.store)))
  {
    var m' := After(l, Calls(l, r), CallCount(r), m, w).m;
    ProgramIsCalls(l, r, m, w);
    RunFields(l, r.outputs, |r.outputs|, m', w);
    assert FieldSteps(l, r.outputs)[..|r.outputs|] == FieldSteps(l, r.outputs);
  }

  lemma SuccessReturns(env: Env, l: Locals, r: Resolved, m: Machine, w: World)
    requires Setup(env, l, r) && Started(l, m) && FirstFail(r, w, 0) == CallCount(r)
    ensures Reached(env, l, r, CallCount(r), m, w)
    ensures var s, m' := Run(Program(l, r), m, w), After(l, Calls(l, r), CallCount(r), m, w).m;
      && (forall j :: 0 <= j < |r.outputs| ==> ReferenceName(l, r.outputs[j].source.key) in m'.store)
      && s == Running(m'.(app := OutputsRead(l, r.outputs, |r.outputs|, m'.store)))
      && (LogMeant(env, r, CallCount(r), m'.log) ==>
            (OutputsAgree(env, l, r, |r.outputs|, m'.store) <==>
               forall i :: 0 <= i < |r.outputs| ==> CleanRead(env, l, r, CallCount(r), OutputDep(r.outputs[i]))))
  {
    RunReaches(env, l, r, CallCount(r), m, w);
    var m' := After(l, Calls(l, r), CallCount(r), m, w).m;
    OutputsFound(env, l, r, m');
    FieldsFilled(l, r, m, w);
  }

  /** Whatever fails, no statement reads a variable that has not been set. */
  lemma NeverUnset(env: Env, l: Locals, r: Resolved, m: Machine, w: World)
    requires Setup(env, l, r) && Started(l, m)
    ensures !Run(Program(l, r), m, w).Unset?
  {
    if FirstFail(r, w, 0) < CallCount(r) {
      FailureReturns(env, l, r, m, w);
    } else {
      SuccessReturns(env, l, r, m, w);
    }
  }

  lemma FaithfulIsCorrect(env: Env, l: Locals, r: Resolved, m: Machine, w: World)
    requires Setup(env, l, r) && Started(l, m) && Faithful(env, l, r)
    ensures Correct(env, r, w, Run(Program(l, r), m, w))
  {
    var n := FirstFail(r, w, 0);
    if n < CallCount(r) {
      FailureReturns(env, l, r, m, w);
    } else {
      SuccessReturns(env, l, r, m, w);
      LogMeantIff(env, l, r, n, m, w);
      CleanupsReverse(r, n, w);
      SameOutputs(env, l, r, |r.outputs|, After(l, Calls(l, r), n, m, w).m.store);
    }
  }

  lemma CorrectIsFaithful(env: Env, l: Locals, r: Resolved, m: Machine, w: World)
    requires Setup(env, l, r) && Started(l, m) && DistinctFields(r.outputs) && w.fails == {}
    requires Correct(env, r, w, Run(Program(l, r), m, w))
    ensures Faithful(env, l, r)
  {
    var n := FirstFail(r, w, 0);
    assert n == CallCount(r);
    SuccessReturns(env, l, r, m, w);
    LogMeantIff(env, l, r, n, m, w);
    FieldsShow(env, l, r, |r.outputs|, After(l, Calls(l, r), n, m, w).m.store);
  }

  ghost predicate BuildsIn(env: Env, l: Locals, r: Resolved, m: Machine, w: World) {
    Correct(env, r, w, Run(Program(l, r), m, w))
  }

  lemma FaithfulBuilds(env: Env, l: Locals, r: Resolved, m: Machine)
    requires Setup(env, l, r) && Started(l, m) && Faithful(env, l, r)
    ensures forall w :: BuildsIn(env, l, r, m, w)
  {
    forall w
      ensures BuildsIn(env, l, r, m, w)
    {
      FaithfulIsCorrect(env, l, r, m, w);
    }
  }

  /** Build does the right thing in every world exactly when no read is misdirected. */
  lemma CorrectIffFaithful(env: Env, l: Locals, r: Resolved, m: Machine)
    requires Setup(env, l, r) && Started(l, m) && DistinctFields(r.outputs)
    ensures (forall w :: BuildsIn(env, l, r, m, w)) <==> Faithful(env, l, r)
  {
    if Faithful(env, l, r) {
      FaithfulBuilds(env, l, r, m);
    } else if forall w :: BuildsIn(env, l, r, m, w) {
      var w := World({}, {});
      assert BuildsIn(env, l, r, m, w);
      CorrectIsFaithful(env, l, r, m, w);
    }
  }

  /** Enough, and easy to check: no cleanup name is a local, and no bound concrete type is an input. */
  lemma PlainNamesAreFaithful(env: Env, l: Locals, r: Resolved)
    requires Setup(env, l, r)
    requires forall i :: 0 <= i < |r.order| && r.order[i].ref.hasCleanup ==>
      CleanupOf(l, r, i) !in l.inputs.Values && CleanupOf(l, r, i) !in l.providers.Values
    requires forall k :: k in env.bindings ==> env.bindings[k].concrete.key !in env.inputs
    ensures Faithful(env, l, r)
  {
    forall t | 0 <= t < CallCount(r)
      ensures CleanCall(env, l, r, t)
    {
      forall j | 0 <= j < |DepsOf(r, t)|
        ensures CleanRead(env, l, r, t, DepsOf(r, t)[j])
      {
        CallDeps(env, l, r, t, j);
        PlainRead(env, l, r, t, DepsOf(r, t)[j]);
      }
    }
    forall i | 0 <= i < |r.outputs|
      ensures CleanRead(env, l, r, CallCount(r), OutputDep(r.outputs[i]))
    {
      assert Before(r, CallCount(r)) == r.order by { assert r.order[..|r.order|] == r.order; }
      PlainRead(env, l, r, CallCount(r), OutputDep(r.outputs[i]));
    }
  }

  lemma PlainRead(env: Env, l: Locals, r: Resolved, t: nat, d: Dep)
    requires Setup(env, l, r) && DepOk(env, KeysOf(Before(r, t)), d)
    requires forall i :: 0 <= i < |r.order| && r.order[i].ref.hasCleanup ==>
      CleanupOf(l, r, i) !in l.inputs.Values && CleanupOf(l, r, i) !in l.providers.Values
    requires forall k :: k in env.bindings ==> env.bindings[k].concrete.key !in env.inputs
    ensures CleanRead(env, l, r, t, d)
  {
    SourceKey(env, d.requested);
    var k := d.source.key;
    if TargetOf(env, d.requested.key).FromProvider? {
      BeforeIndex(env, r, t, k);
      assert l.providers[k] in l.providers.Values;
    } else {
      assert l.inputs[k] in l.inputs.Values;
    }
  }

  // ---------------------------------------------------------------- emission

  lemma ResolvedIsSetup(g: Graph, r: Resolved, l: Locals)
    requires DuplicateFree(g) && ResolvedOk(g, EnvOf(g), r) && GoodLocals(EnvOf(g), l, r)
    ensures Setup(EnvOf(g), l, r)
  {
    var env := EnvOf(g);
    ProviderTableHolds(g.providers);
    InputTableHolds(g.inputs);
    forall i | 0 <= i < |r.outputs|
      ensures DepOk(env, KeysOf(r.order), OutputDep(r.outputs[i]))
    {
      assert OutputOk(env, KeysOf(r.order), g.outputs, i, r.outputs[i]);
    }
    forall i, j | 0 <= i < |r.invokes| && 0 <= j < |r.invokes[i].deps|
      ensures DepOk(env, KeysOf(r.order), r.invokes[i].deps[j])
    {
      assert DepsOk(env, KeysOf(r.order), g.invokes[i].params, r.invokes[i].deps);
    }
  }

  function ResultsOf(order: seq<Node>): seq<TypeRef> {
    seq(|order|, i requires 0 <= i < |order| => order[i].ref.result)
  }

  /** The locals that Build gets. */
  ghost function LocalsOf(g: Graph, r: Resolved, aliases: set<string>): Locals {
    var reserved := ReservedNames(aliases);
    var inputs := Named(ParamWants(g.inputs), reserved).0;
    Locals(inputs, Named(ResultWants(ResultsOf(r.order)), reserved + inputs.Values).0)
  }

  lemma LocalsAreGood(g: Graph, r: Resolved, aliases: set<string>)
    ensures GoodLocals(EnvOf(g), LocalsOf(g, r, aliases), r)
    ensures Avoids(LocalsOf(g, r, aliases).inputs, aliases) && Avoids(LocalsOf(g, r, aliases).providers, aliases)
  {
    var reserved, results := ReservedNames(aliases), ResultsOf(r.order);
    var inputs := Named(ParamWants(g.inputs), reserved).0;
    NamedFor(g.inputs, ParamWants(g.inputs), reserved);
    NamedFor(results, ResultWants(results), reserved + inputs.Values);
    InputTableHolds(g.inputs);
    forall k
      ensures k in KeysOfRefs(results) <==> k in KeysOf(r.order)
    {
      forall i | 0 <= i < |r.order|
        ensures results[i].key == KeyOf(r.order[i])
      {}
    }
  }

  method AssignLocals(g: Graph, r: Resolved, aliases: set<string>) returns (l: Locals)
    ensures l == LocalsOf(g, r, aliases)
  {
    var reserved := ReservedNames(aliases);
    var inputs := BuildInputVarNames(g.inputs, reserved);
    var results := ResultsOf(r.order);
    var providers := BuildProviderVarNames(results, reserved, inputs);
    l := Locals(inputs, providers);
  }

  lemma StepsOneMore(l: Locals, calls: seq<Call>, i: nat)
    requires i < |calls|
    ensures Steps(l, calls[..i + 1]) == Steps(l, calls[..i]) + CallSteps(l, calls[i])
  {
    assert calls[..i + 1][..i] == calls[..i];
  }

  lemma {:induction false} StepsConcat(l: Locals, a: seq<Call>, b: seq<Call>)
    ensures Steps(l, a + b) == Steps(l, a) + Steps(l, b)
  {
    if b == [] {
      assert a + b == a;
    } else {
      var n := |b| - 1;
      var last := CallSteps(l, b[n]);
      StepsConcat(l, a, b[..n]);
      assert (a + b)[..|a + b| - 1] == a + b[..n];
      assert Steps(l, a + b) == Steps(l, a + b[..n]) + last && Steps(l, b) == Steps(l, b[..n]) + last;
      Reassociate(Steps(l, a), Steps(l, b[..n]), last);
    }
  }

  method EmitProviders(l: Locals, order: seq<Node>) returns (program: seq<Stmt>)
    ensures program == Steps(l, ProviderCalls(l, order))
  {
    ghost var calls := ProviderCalls(l, order);
    program := [];
    for i := 0 to |order|
      invariant program == Steps(l, calls[..i])
    {
      StepsOneMore(l, calls, i);
      program := program + CallSteps(l, ProviderCall(l, order[i]));
    }
    assert calls[..|order|] == calls;
  }

  method EmitInvokes(l: Locals, invokes: seq<ResolvedInvoke>) returns (program: seq<Stmt>)
    ensures program == Steps(l, InvokeCalls(invokes))
  {
    ghost var calls := InvokeCalls(invokes);
    program := [];
    for i := 0 to |invokes|
      invariant program == Steps(l, calls[..i])
    {
      StepsOneMore(l, calls, i);
      program := program + CallSteps(l, InvokeCall(invokes[i]));
    }
    assert calls[..|invokes|] == calls;
  }

  method EmitFields(l: Locals, outputs: seq<ResolvedOutput>) returns (program: seq<Stmt>)
    ensures program == FieldSteps(l, outputs)
  {
    program := [];
    for i := 0 to |outputs|
      invariant program == FieldSteps(l, outputs)[..i]
    {
      program := program + [SetField(outputs[i].field, ReferenceName(l, outputs[i].source.key))];
    }
  }

  /** The steps of the providers, of the invokes and of the fields. */
  method EmitSteps(l: Locals, r: Resolved) returns (program: seq<Stmt>)
    ensures program == Program(l, r)
  {
    var providers := EmitProviders(l, r.order);
    var invokes := EmitInvokes(l, r.invokes);
    var fields := EmitFields(l, r.outputs);
    StepsConcat(l, ProviderCalls(l, r.order), InvokeCalls(r.invokes));
    program := providers + invokes + fields;
  }

  lemma BuildIsSetup(g: Graph, r: Resolved, aliases: set<string>)
    requires DuplicateFree(g) && ResolvedOk(g, EnvOf(g), r)
    ensures Setup(EnvOf(g), LocalsOf(g, r, aliases), r)
  {
    LocalsAreGood(g, r, aliases);
    ResolvedIsSetup(g, r, LocalsOf(g, r, aliases));
  }

  lemma HelpersAreFree(env: Env, l: Locals, r: Resolved)
    requires GoodLocals(env, l, r)
    ensures forall x :: x in {"app", "cleanups", "err", "runCleanups"} ==>
              x !in l.inputs.Values && x !in l.providers.Values
  {
  }

  /** emitBuildFunc: names first, then the steps. */
  method EmitBuildFunc(g: Graph, r: Resolved, aliases: set<string>) returns (l: Locals, program: seq<Stmt>)
    requires DuplicateFree(g) && ResolvedOk(g, EnvOf(g), r)
    ensures l == LocalsOf(g, r, aliases) && Avoids(l.inputs, aliases) && Avoids(l.providers, aliases)
    ensures forall x :: x in {"app", "cleanups", "err", "runCleanups"} ==>
              x !in l.inputs.Values && x !in l.providers.Values
    ensures Setup(EnvOf(g), l, r) && program == Program(l, r)
  {
    l := AssignLocals(g, r, aliases);
    LocalsAreGood(g, r, aliases);
    HelpersAreFree(EnvOf(g), l, r);
    BuildIsSetup(g, r, aliases);
    program := EmitSteps(l, r);
  }
}
