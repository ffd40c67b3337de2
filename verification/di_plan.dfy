/**
 The Build function that emitBuildFunc writes, as a list of statements, with an interpreter.  A
 world says which calls return an error and which return a nil cleanup.
 */
module DiPlan {
  import opened DiModel
  import opened DiNames
  import opened DiResolver

  // ---------------------------------------------------------------- programs

  /** What a provider (first three) or an invoke (last two) returns. */
  datatype Sig = Plain | WithErr | WithCleanup | ErrOnly | NoResult

  datatype Stmt =
    | Assign(lhs: seq<string>, sig: Sig, fn: string, args: seq<string>)  // lhs := fn(args)
    | CheckErr                                // if err != nil { runCleanups(); return nil, nil, err }
    | Push(name: string)                      // if name != nil { cleanups = append(cleanups, name) }
    | SetField(field: string, name: string)   // app.field = name

  /** The names of the Build parameters and of the provider results. */
  datatype Locals = Locals(inputs: map<Key, string>, providers: map<Key, string>)

  function ReferenceName(l: Locals, k: Key): string {
    if k in l.inputs then l.inputs[k] else if k in l.providers then l.providers[k] else ""
  }

  function Args(l: Locals, deps: seq<Dep>): seq<string> {
    seq(|deps|, j requires 0 <= j < |deps| => ReferenceName(l, deps[j].source.key))
  }

  /** A provider or invoke call; `v` and `c` name its result and its cleanup. */
  datatype Call = Call(sig: Sig, fn: string, deps: seq<Dep>, v: string, c: string)

  function SigOf(p: Provider): Sig {
    if p.hasCleanup then WithCleanup else if p.hasError then WithErr else Plain
  }

  function ProviderCall(l: Locals, n: Node): Call {
    var v := if KeyOf(n) in l.providers then l.providers[KeyOf(n)] else "";
    Call(SigOf(n.ref), n.ref.expr, n.deps, v, MakeCleanupName(n.ref.result, v))
  }

  function InvokeCall(i: ResolvedInvoke): Call {
    Call(if i.ref.returnsErr then ErrOnly else NoResult, i.ref.expr, i.deps, "", "")
  }

  function ProviderCalls(l: Locals, order: seq<Node>): seq<Call> {
    seq(|order|, i requires 0 <= i < |order| => ProviderCall(l, order[i]))
  }

  function InvokeCalls(invokes: seq<ResolvedInvoke>): seq<Call> {
    seq(|invokes|, i requires 0 <= i < |invokes| => InvokeCall(invokes[i]))
  }

  function Calls(l: Locals, r: Resolved): (calls: seq<Call>)
    ensures |calls| == |r.order| + |r.invokes|
  {
    ProviderCalls(l, r.order) + InvokeCalls(r.invokes)
  }

  function CallSteps(l: Locals, call: Call): seq<Stmt> {
    var args := Args(l, call.deps);
    match call.sig
    case WithCleanup => [Assign([call.v, call.c, "err"], WithCleanup, call.fn, args), CheckErr, Push(call.c)]
    case WithErr => [Assign([call.v, "err"], WithErr, call.fn, args), CheckErr]
    case Plain => [Assign([call.v], Plain, call.fn, args)]
    case ErrOnly => [Assign(["err"], ErrOnly, call.fn, args), CheckErr]
    case NoResult => [Assign([], NoResult, call.fn, args)]
  }

  function Steps(l: Locals, calls: seq<Call>): seq<Stmt> {
    if calls == [] then [] else Steps(l, calls[..|calls| - 1]) + CallSteps(l, calls[|calls| - 1])
  }

  function FieldSteps(l: Locals, outputs: seq<ResolvedOutput>): seq<Stmt> {
    seq(|outputs|, i requires 0 <= i < |outputs| => SetField(outputs[i].field, ReferenceName(l, outputs[i].source.key)))
  }

  function Program(l: Locals, r: Resolved): seq<Stmt> {
    Steps(l, Calls(l, r)) + FieldSteps(l, r.outputs)
  }

  // ---------------------------------------------------------------- running them

  datatype Value = In(k: Key) | Made(fn: string, args: seq<Value>) | Cleanup(call: nat) | Error(call: nat) | Nil | Junk

  datatype World = World(fails: set<nat>, nils: set<nat>)

  /** The log holds every call made, with its arguments. */
  datatype Machine = Machine(store: map<string, Value>, stack: seq<Value>, log: seq<Value>, app: map<string, Value>)

  datatype Status = Running(m: Machine) | Returned(ran: seq<Value>, err: Value, log: seq<Value>) | Unset

  predicate ReturnsErr(sig: Sig) { sig.WithErr? || sig.WithCleanup? || sig.ErrOnly? }

  predicate FailsAt(w: World, sig: Sig, c: nat) { ReturnsErr(sig) && c in w.fails }

  function CleanupValue(w: World, c: nat): Value {
    if c in w.nils then Nil else Cleanup(c)
  }

  function Results(w: World, sig: Sig, v: Value, c: nat): seq<Value> {
    var err := if c in w.fails then Error(c) else Nil;
    match sig
    case Plain => [v]
    case WithErr => [if c in w.fails then Junk else v, err]
    case WithCleanup => if c in w.fails then [Junk, Junk, err] else [v, CleanupValue(w, c), err]
    case ErrOnly => [err]
    case NoResult => []
  }

  function Bind(store: map<string, Value>, lhs: seq<string>, vals: seq<Value>): map<string, Value>
    decreases |lhs|
  {
    if lhs == [] || vals == [] then store else Bind(store[lhs[0] := vals[0]], lhs[1..], vals[1..])
  }

  /** runCleanups: from the last to the first, nil entries skipped. */
  function RunCleanups(stack: seq<Value>): seq<Value> {
    if stack == [] then []
    else (if stack[|stack| - 1] == Nil then [] else [stack[|stack| - 1]]) + RunCleanups(stack[..|stack| - 1])
  }

  predicate AllSet(store: map<string, Value>, args: seq<string>) {
    forall j :: 0 <= j < |args| ==> args[j] in store
  }

  function Read(store: map<string, Value>, args: seq<string>): seq<Value>
    requires AllSet(store, args)
  {
    seq(|args|, j requires 0 <= j < |args| => store[args[j]])
  }

  function Exec(s: Stmt, m: Machine, w: World): Status {
    match s
    case Assign(lhs, sig, fn, args) =>
      if AllSet(m.store, args) then
        var v := Made(fn, Read(m.store, args));
        Running(m.(store := Bind(m.store, lhs, Results(w, sig, v, |m.log|)), log := m.log + [v]))
      else Unset
    case CheckErr =>
      if "err" !in m.store then Unset
      else if m.store["err"] == Nil then Running(m)
      else Returned(RunCleanups(m.stack), m.store["err"], m.log)
    case Push(name) =>
      if name !in m.store then Unset
      else if m.store[name] == Nil then Running(m)
      else Running(m.(stack := m.stack + [m.store[name]]))
    case SetField(field, name) =>
      if name in m.store then Running(m.(app := m.app[field := m.store[name]])) else Unset
  }

  function Run(p: seq<Stmt>, m: Machine, w: World): Status {
    if p == [] then Running(m)
    else
      var s := Run(p[..|p| - 1], m, w);
      if s.Running? then Exec(p[|p| - 1], s.m, w) else s
  }

  lemma {:induction false} RunConcat(a: seq<Stmt>, b: seq<Stmt>, m: Machine, w: World)
    ensures Run(a + b, m, w) == if Run(a, m, w).Running? then Run(b, Run(a, m, w).m, w) else Run(a, m, w)
  {
    if b == [] {
      assert a + b == a;
    } else {
      var n := |b| - 1;
      assert (a + b)[..|a + b| - 1] == a + b[..n];
      RunConcat(a, b[..n], m, w);
    }
  }

  // ---------------------------------------------------------------- one call as a whole

  function StoreAfter(store: map<string, Value>, call: Call, w: World, c: nat, v: Value): map<string, Value> {
    match call.sig
    case Plain => store[call.v := v]
    case WithErr => store[call.v := v]["err" := Nil]
    case WithCleanup => store[call.v := v][call.c := CleanupValue(w, c)]["err" := Nil]
    case ErrOnly => store["err" := Nil]
    case NoResult => store
  }

  /** The effect of the statements of one call. */
  function AfterCall(l: Locals, call: Call, m: Machine, w: World): Status {
    var args, c := Args(l, call.deps), |m.log|;
    if !AllSet(m.store, args) then Unset
    else
      var v := Made(call.fn, Read(m.store, args));
      if FailsAt(w, call.sig, c) then Returned(RunCleanups(m.stack), Error(c), m.log + [v])
      else
        Running(Machine(StoreAfter(m.store, call, w, c, v),
                        m.stack + (if call.sig.WithCleanup? && c !in w.nils then [Cleanup(c)] else []),
                        m.log + [v], m.app))
  }

  lemma RunOne(s: Stmt, m: Machine, w: World)
    ensures Run([s], m, w) == Exec(s, m, w)
  {
    assert [s][..0] == [];
  }

  lemma RunTwo(s: Stmt, t: Stmt, m: Machine, w: World)
    ensures Run([s, t], m, w) == if Exec(s, m, w).Running? then Exec(t, Exec(s, m, w).m, w) else Exec(s, m, w)
  {
    assert [s, t][..1] == [s];
    RunOne(s, m, w);
  }

  lemma BindOne(store: map<string, Value>, x: string, a: Value)
    ensures Bind(store, [x], [a]) == store[x := a]
  {
    assert [x][1..] == [] && [a][1..] == [];
  }

  lemma BindTwo(store: map<string, Value>, x: string, y: string, a: Value, b: Value)
    ensures Bind(store, [x, y], [a, b]) == store[x := a][y := b]
  {
    assert [x, y][1..] == [y] && [a, b][1..] == [b];
    BindOne(store[x := a], y, b);
  }

  lemma BindThree(store: map<string, Value>, x: string, y: string, z: string, a: Value, b: Value, c: Value)
    ensures Bind(store, [x, y, z], [a, b, c]) == store[x := a][y := b][z := c]
  {
    assert [x, y, z][1..] == [y, z] && [a, b, c][1..] == [b, c];
    BindTwo(store[x := a], y, z, b, c);
  }

  lemma CallStepsEffect(l: Locals, call: Call, m: Machine, w: World)
    requires call.sig.WithCleanup? ==> call.c != "err"
    ensures Run(CallSteps(l, call), m, w) == AfterCall(l, call, m, w)
  {
    var steps, args, c := CallSteps(l, call), Args(l, call.deps), |m.log|;
    if AllSet(m.store, args) {
      var v := Made(call.fn, Read(m.store, args));
      var rs := Results(w, call.sig, v, c);
      match call.sig
      case Plain => BindOne(m.store, call.v, rs[0]); RunOne(steps[0], m, w);
      case NoResult => RunOne(steps[0], m, w);
      case ErrOnly => BindOne(m.store, "err", rs[0]); RunTwo(steps[0], steps[1], m, w);
      case WithErr => BindTwo(m.store, call.v, "err", rs[0], rs[1]); RunTwo(steps[0], steps[1], m, w);
      case WithCleanup =>
        BindThree(m.store, call.v, call.c, "err", rs[0], rs[1], rs[2]);
        RunTwo(steps[0], steps[1], m, w);
        assert steps[..2] == [steps[0], steps[1]];
    } else {
      Unreadable(l, call, m, w);
    }
  }

  lemma Unreadable(l: Locals, call: Call, m: Machine, w: World)
    requires !AllSet(m.store, Args(l, call.deps))
    ensures Run(CallSteps(l, call), m, w) == Unset
  {
    var steps := CallSteps(l, call);
    assert steps == [steps[0]] + steps[1..];
    RunOne(steps[0], m, w);
    RunConcat([steps[0]], steps[1..], m, w);
  }

  /** The state after the first t calls. */
  function After(l: Locals, calls: seq<Call>, t: nat, m: Machine, w: World): Status
    requires t <= |calls|
  {
    if t == 0 then Running(m)
    else
      var s := After(l, calls, t - 1, m, w);
      if s.Running? then AfterCall(l, calls[t - 1], s.m, w) else s
  }

  lemma {:induction false} StepsAreCalls(l: Locals, calls: seq<Call>, t: nat, m: Machine, w: World)
    requires t <= |calls|
    requires forall i :: 0 <= i < |calls| && calls[i].sig.WithCleanup? ==> calls[i].c != "err"
    ensures Run(Steps(l, calls[..t]), m, w) == After(l, calls, t, m, w)
  {
    if t > 0 {
      assert calls[..t][..t - 1] == calls[..t - 1];
      StepsAreCalls(l, calls, t - 1, m, w);
      RunConcat(Steps(l, calls[..t - 1]), CallSteps(l, calls[t - 1]), m, w);
      if After(l, calls, t - 1, m, w).Running? {
        CallStepsEffect(l, calls[t - 1], After(l, calls, t - 1, m, w).m, w);
      }
    }
  }

  // ---------------------------------------------------------------- argument lists as text

  /** strings.Join(args, ", "). */
  function Join(parts: seq<string>): string {
    if parts == [] then "" else if |parts| == 1 then parts[0] else parts[0] + ", " + Join(parts[1..])
  }

  /** strings.Split(s, ", "). */
  function Split(s: string): (r: seq<string>)
    ensures r != []
  {
    if s == "" then [""]
    else if |s| >= 2 && s[0] == ',' && s[1] == ' ' then [""] + Split(s[2..])
    else var r := Split(s[1..]); [[s[0]] + r[0]] + r[1..]
  }

  function ArgCodes(args: string): seq<string> {
    if args == "" then [] else Split(args)
  }

  lemma {:induction false} SplitWord(word: string, rest: string)
    requires ',' !in word
    ensures Split(word) == [word] && Split(word + ", " + rest) == [word] + Split(rest)
  {
    var s := word + ", " + rest;
    if word == "" {
      assert s[2..] == rest;
    } else {
      SplitWord(word[1..], rest);
      assert s[1..] == word[1..] + ", " + rest;
      assert [word[0]] + word[1..] == word;
    }
  }

  /** argCodes recovers the argument list: identifiers contain no comma. */
  lemma {:induction false} ArgCodesRoundTrip(parts: seq<string>)
    requires forall i :: 0 <= i < |parts| ==> parts[i] != "" && ',' !in parts[i]
    ensures ArgCodes(Join(parts)) == parts
  {
    if |parts| == 1 {
      SplitWord(parts[0], "");
    } else if |parts| > 1 {
      ArgCodesRoundTrip(parts[1..]);
      SplitWord(parts[0], Join(parts[1..]));
      assert Join(parts[1..]) != "";
      assert [parts[0]] + parts[1..] == parts;
    }
  }
}
