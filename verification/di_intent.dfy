/**
 What Build is meant to do, read off the resolved graph alone: which calls it makes, with which
 arguments, which of them can fail, which cleanups they register, and what comes out.
 */
module DiIntent {
  import opened DiModel
  import opened DiResolver
  import opened DiPlan

  // ---------------------------------------------------------------- the calls

  /** The providers in build order, then the invokes. */
  function CallCount(r: Resolved): nat {
    |r.order| + |r.invokes|
  }

  function FnOf(r: Resolved, t: nat): string
    requires t < CallCount(r)
  {
    if t < |r.order| then r.order[t].ref.expr else r.invokes[t - |r.order|].ref.expr
  }

  function DepsOf(r: Resolved, t: nat): seq<Dep>
    requires t < CallCount(r)
  {
    if t < |r.order| then r.order[t].deps else r.invokes[t - |r.order|].deps
  }

  predicate CanFail(r: Resolved, t: nat)
    requires t < CallCount(r)
  {
    if t < |r.order| then r.order[t].ref.hasError || r.order[t].ref.hasCleanup
    else r.invokes[t - |r.order|].ref.returnsErr
  }

  predicate HasCleanup(r: Resolved, t: nat) {
    t < |r.order| && r.order[t].ref.hasCleanup
  }

  // ---------------------------------------------------------------- the values

  function IndexOf(order: seq<Node>, k: Key): (i: nat)
    requires k in KeysOf(order)
    ensures i < |order| && KeyOf(order[i]) == k
  {
    if KeyOf(order[|order| - 1]) == k then |order| - 1
    else (StillIn(order, k); IndexOf(order[..|order| - 1], k))
  }

  lemma StillIn(order: seq<Node>, k: Key)
    requires k in KeysOf(order) && KeyOf(order[|order| - 1]) != k
    ensures k in KeysOf(order[..|order| - 1])
  {
    var i :| 0 <= i < |order| && KeyOf(order[i]) == k;
    assert order[..|order| - 1][i] == order[i];
  }

  /** The value of a dependency, given the providers built before. */
  function DepValue(env: Env, before: seq<Node>, d: Dep): Value
    decreases |before|, 0
  {
    match TargetOf(env, d.requested.key)
    case FromInput => In(d.requested.key)
    case FromProvider(q) =>
      if q in KeysOf(before) then
        var j := IndexOf(before, q);
        CallValue(env, before[..j], before[j].ref.expr, before[j].deps)
      else Junk
    case Missing => Junk
  }

  /** A function applied to the values of its dependencies. */
  function CallValue(env: Env, before: seq<Node>, fn: string, deps: seq<Dep>): Value
    decreases |before|, 1
  {
    Made(fn, seq(|deps|, j requires 0 <= j < |deps| => DepValue(env, before, deps[j])))
  }

  /** The providers built before call t. */
  function Before(r: Resolved, t: nat): seq<Node> {
    if t <= |r.order| then r.order[..t] else r.order
  }

  /** The call number t with the arguments it should get. */
  function Meant(env: Env, r: Resolved, t: nat): Value
    requires t < CallCount(r)
  {
    CallValue(env, Before(r, t), FnOf(r, t), DepsOf(r, t))
  }

  ghost predicate LogMeant(env: Env, r: Resolved, t: nat, log: seq<Value>)
    requires t <= CallCount(r)
  {
    |log| == t && forall i :: 0 <= i < t ==> log[i] == Meant(env, r, i)
  }

  function OutputDep(o: ResolvedOutput): Dep {
    Dep(o.requested, o.source)
  }

  function OutputsMeant(env: Env, r: Resolved, i: nat): map<string, Value>
    requires i <= |r.outputs|
  {
    if i == 0 then map[]
    else OutputsMeant(env, r, i - 1)[r.outputs[i - 1].field := DepValue(env, r.order, OutputDep(r.outputs[i - 1]))]
  }

  // ---------------------------------------------------------------- failures and cleanups

  /** In this world call t returns an error. */
  predicate Fails(r: Resolved, w: World, t: nat)
    requires t < CallCount(r)
  {
    CanFail(r, t) && t in w.fails
  }

  function FirstFail(r: Resolved, w: World, from: nat): (n: nat)
    requires from <= CallCount(r)
    ensures from <= n <= CallCount(r) && (n < CallCount(r) ==> Fails(r, w, n))
    ensures forall i :: from <= i < n ==> !Fails(r, w, i)
    decreases CallCount(r) - from
  {
    if from == CallCount(r) || Fails(r, w, from) then from else FirstFail(r, w, from + 1)
  }

  /** The cleanups that the first t calls registered, in order; a nil cleanup is not registered. */
  function StackOf(r: Resolved, t: nat, w: World): seq<Value>
    requires t <= CallCount(r)
  {
    if t == 0 then []
    else StackOf(r, t - 1, w) + (if HasCleanup(r, t - 1) && t - 1 !in w.nils then [Cleanup(t - 1)] else [])
  }

  function Reversed(s: seq<Value>): seq<Value> {
    if s == [] then [] else [s[|s| - 1]] + Reversed(s[..|s| - 1])
  }

  /**
   What a run should do: up to the first failing call every call gets its arguments.  After a
   failure exactly the cleanups registered so far have run, last first, and nothing else was
   called; otherwise none has run, the fields hold their values, and the returned closure
   runs all of them, last first.
   */
  ghost predicate Correct(env: Env, r: Resolved, w: World, s: Status) {
    var n := FirstFail(r, w, 0);
    if n < CallCount(r) then
      s.Returned? && s.ran == Reversed(StackOf(r, n, w)) && s.err == Error(n) && LogMeant(env, r, n + 1, s.log)
    else
      && s.Running? && LogMeant(env, r, n, s.m.log) && s.m.app == OutputsMeant(env, r, |r.outputs|)
      && s.m.stack == StackOf(r, n, w) && RunCleanups(s.m.stack) == Reversed(StackOf(r, n, w))
  }
}
