/**
 TimeoutMiddleware: the handler goroutine and the middleware goroutine meet over two buffered
 channels and an atomic flag.  The request context may be done at any time.
 */
module TimeoutHandshake {

  datatype Option<+T> = None | Some(value: T)

  // ---------------------------------------------------------------- timeoutWriter

  /** The wrapped writer; `headers` and `body` are what reaches the underlying one. */
  class TimeoutWriter {
    var discardWrites: bool
    var wroteHeader: bool
    var headers: seq<int>
    var body: seq<string>

    constructor ()
      ensures Valid() && !discardWrites && headers == [] && body == []
      ensures Shows(Initial())
    {
      discardWrites, wroteHeader, headers, body := false, false, [], [];
    }

    /** At most one header passes, and the flag says whether one did. */
    ghost predicate Valid()
      reads this
    {
      |headers| <= 1 && (wroteHeader <==> |headers| == 1)
    }

    /** The writer is the one of state s: its flag and its body are what the state records. */
    ghost predicate Shows(s: State)
      reads this
    {
      Valid() && !discardWrites && (wroteHeader <==> s.wroteHeader) && (body != [] <==> s.wroteBody)
    }

    method WriteHeader(code: int)
      requires Valid()
      modifies this`wroteHeader, this`headers
      ensures Valid() && old(headers) <= headers
      ensures headers == if discardWrites || old(wroteHeader) then old(headers) else [code]
      ensures forall s :: old(Shows(s)) && Enabled(s, Step.WriteHeader) ==> Shows(Apply(s, Step.WriteHeader))
    {
      if discardWrites || wroteHeader {
        return;
      }
      wroteHeader := true;
      headers := headers + [code];
    }

    /** A write does not count as a header. */
    method Write(b: string) returns (n: nat)
      requires Valid()
      modifies this`body
      ensures Valid() && n == |b|
      ensures body == if discardWrites then old(body) else old(body) + [b]
      ensures forall s :: old(Shows(s)) && Enabled(s, WriteBody) ==> Shows(Apply(s, WriteBody))
    {
      n := |b|;
      if !discardWrites {
        body := body + [b];
      }
    }

    /**
     What the middleware does once the handler is over after ctx.Done(): it answers only if no
     header has passed, so that exactly one has in the end.
     */
    method Conclude(panicRecorded: bool, payload: string) returns (answer: Option<int>)
      requires Valid() && !discardWrites
      modifies this`wroteHeader, this`headers, this`body
      ensures Valid() && |headers| == 1
      ensures answer.None? ==> old(wroteHeader) && headers == old(headers) && body == old(body)
      ensures answer.Some? ==> !old(wroteHeader) && headers == [answer.value] && body == old(body) + [payload]
      ensures answer.Some? ==> answer.value == if panicRecorded then 500 else 504
      ensures forall s :: old(Shows(s)) && Enabled(s, Answer) && s.panicRecorded == panicRecorded ==>
                answer == Apply(s, Answer).answer
    {
      var handlerWrote := wroteHeader;
      if handlerWrote {
        return None;
      }
      var code := if panicRecorded then INTERNAL_ERROR else GATEWAY_TIMEOUT;
      WriteHeader(code);
      var n := Write(payload);
      return Some(code);
    }
  }

  // ---------------------------------------------------------------- the two goroutines

  datatype Handler =
    | Serving        // inside c.Next()
    | Recovered      // panicked; the panic is to be recorded
    | Recorded       // panic recorded; timedOut to be read
    | SendingPanic   // about to send on panicCh
    | SendingFin     // about to send on finCh
    | Finished

  datatype Middleware =
    | Selecting
    | CtxDone        // took ctx.Done(); timedOut to be stored
    | Waiting        // for finCh
    | Deciding       // finCh received
    | Repanicked     // left: panic raised again
    | Completed      // left: finCh taken by the select
    | Answered       // left: after ctx.Done()

  predicate Left(m: Middleware) { m.Repanicked? || m.Completed? || m.Answered? }

  /** `answer` is the status that the middleware itself wrote. */
  datatype State = State(
    handler: Handler,
    mw: Middleware,
    ctxDone: bool,
    timedOut: bool,
    panicCh: nat,
    finCh: nat,
    panicRecorded: bool,
    wroteHeader: bool,
    wroteBody: bool,
    panicked: bool,
    answer: Option<int>)

  const CAPACITY: nat := 1
  const INTERNAL_ERROR := 500
  const GATEWAY_TIMEOUT := 504

  function Initial(): State {
    State(Serving, Selecting, false, false, 0, 0, false, false, false, false, None)
  }

  datatype Step =
    | WriteHeader | WriteBody | Return | Panic                  // the handler proper
    | Record | ReadFlag | SendPanic | SendFin                   // its deferred function
    | ContextEnds                                               // deadline or disconnect
    | TakePanic | TakeDone | TakeFin | StoreFlag | TakeFinLate | Answer   // the middleware

  predicate Enabled(s: State, step: Step) {
    match step
    case WriteHeader => s.handler.Serving?
    case WriteBody => s.handler.Serving?
    case Return => s.handler.Serving?
    case Panic => s.handler.Serving?
    case Record => s.handler.Recovered?
    case ReadFlag => s.handler.Recorded?
    case SendPanic => s.handler.SendingPanic? && s.panicCh < CAPACITY
    case SendFin => s.handler.SendingFin? && s.finCh < CAPACITY
    case ContextEnds => !s.ctxDone
    case TakePanic => s.mw.Selecting? && s.panicCh > 0
    case TakeDone => s.mw.Selecting? && s.ctxDone
    case TakeFin => s.mw.Selecting? && s.finCh > 0
    case StoreFlag => s.mw.CtxDone?
    case TakeFinLate => s.mw.Waiting? && s.finCh > 0
    case Answer => s.mw.Deciding?
  }

  function Apply(s: State, step: Step): State
    requires Enabled(s, step)
  {
    match step
    case WriteHeader => s.(wroteHeader := true)
    case WriteBody => s.(wroteBody := true)
    case Return => s.(handler := SendingFin)
    case Panic => s.(handler := Recovered, panicked := true)
    case Record => s.(handler := Recorded, panicRecorded := true)
    case ReadFlag => s.(handler := if s.timedOut then SendingFin else SendingPanic)
    case SendPanic => s.(handler := SendingFin, panicCh := s.panicCh + 1)
    case SendFin => s.(handler := Finished, finCh := s.finCh + 1)
    case ContextEnds => s.(ctxDone := true)
    case TakePanic => s.(mw := Repanicked, panicCh := s.panicCh - 1)
    case TakeDone => s.(mw := CtxDone)
    case TakeFin => s.(mw := Completed, finCh := s.finCh - 1)
    case StoreFlag => s.(mw := Waiting, timedOut := true)
    case TakeFinLate => s.(mw := Deciding, finCh := s.finCh - 1)
    case Answer =>
      s.(mw := Answered,
         answer := if s.wroteHeader then None
                   else if s.panicRecorded then Some(INTERNAL_ERROR)
                   else Some(GATEWAY_TIMEOUT))
  }

  ghost predicate Run(s: State, steps: seq<Step>, t: State)
    decreases |steps|
  {
    if steps == [] then s == t else Enabled(s, steps[0]) && Run(Apply(s, steps[0]), steps[1..], t)
  }

  ghost predicate Reachable(s: State) {
    exists steps :: Run(Initial(), steps, s)
  }

  // ---------------------------------------------------------------- the invariant

  ghost predicate Inv(s: State) {
    && (s.panicked <==>
          || s.handler.Recovered? || s.handler.Recorded? || s.handler.SendingPanic?
          || (s.panicRecorded && (s.handler.SendingFin? || s.handler.Finished?)))
    && (s.panicRecorded ==> s.panicked && !s.handler.Serving? && !s.handler.Recovered?)
    && (s.handler.Serving? || s.handler.Recovered? ==> !s.panicRecorded)
    && (s.handler.Recorded? || s.handler.SendingPanic? ==> s.panicRecorded)
    && s.panicCh <= 1 && s.finCh <= 1
    && (s.panicCh == 1 || s.mw.Repanicked? ==> s.panicRecorded && (s.handler.SendingFin? || s.handler.Finished?))
    && (s.mw.Repanicked? ==> s.panicCh == 0)
    && (s.panicked && (s.mw.Selecting? || s.mw.Completed?) && (s.handler.SendingFin? || s.handler.Finished?) ==>
          s.panicCh == 1)
    && (s.finCh == 1 ==> s.handler.Finished? && !s.mw.Completed? && !s.mw.Deciding? && !s.mw.Answered?)
    && (s.mw.Completed? || s.mw.Deciding? || s.mw.Answered? ==> s.handler.Finished? && s.finCh == 0)
    && (s.handler.Finished? && (s.mw.Selecting? || s.mw.CtxDone? || s.mw.Waiting? || s.mw.Repanicked?) ==> s.finCh == 1)
    && (s.timedOut <==> s.mw.Waiting? || s.mw.Deciding? || s.mw.Answered?)
    && (s.mw.CtxDone? || s.mw.Waiting? || s.mw.Deciding? || s.mw.Answered? ==> s.ctxDone)
    && (!s.mw.Answered? ==> s.answer == None)
    && (s.mw.Answered? ==> s.answer == Due(s))
  }

  /** What the middleware owes the client after ctx.Done(). */
  function Due(s: State): Option<int> {
    if s.wroteHeader then None else if s.panicked then Some(INTERNAL_ERROR) else Some(GATEWAY_TIMEOUT)
  }

  lemma InvNext(s: State, step: Step)
    requires Inv(s) && Enabled(s, step)
    ensures Inv(Apply(s, step))
  {
  }

  lemma {:induction false} RunInv(s: State, steps: seq<Step>, t: State)
    requires Inv(s) && Run(s, steps, t)
    ensures Inv(t)
    decreases |steps|
  {
    if steps != [] {
      InvNext(s, steps[0]);
      RunInv(Apply(s, steps[0]), steps[1..], t);
    }
  }

  lemma ReachableInv(s: State)
    requires Reachable(s)
    ensures Inv(s)
  {
    var steps :| Run(Initial(), steps, s);
    RunInv(Initial(), steps, s);
  }

  // ---------------------------------------------------------------- results

  /** No goroutine ever blocks on a send: there is room for one, and the channel is empty. */
  lemma SendsNeverBlock(s: State)
    requires Reachable(s)
    ensures s.handler.SendingPanic? ==> Enabled(s, SendPanic) && s.panicCh == 0
    ensures s.handler.SendingFin? ==> Enabled(s, SendFin) && s.finCh == 0
    ensures s.panicCh <= 1 && s.finCh <= 1
  {
    ReachableInv(s);
  }

  /** The middleware leaves, and writes, only when c.Next() has returned or panicked. */
  lemma LeavesAfterHandler(s: State)
    requires Reachable(s)
    ensures Left(s.mw) ==> !s.handler.Serving?
    ensures s.mw.Repanicked? ==> s.panicked
    ensures s.answer.Some? ==> s.mw.Answered? && s.handler.Finished?
  {
    ReachableInv(s);
  }

  /** The answer after ctx.Done(): nothing after WriteHeader, else 500 after a panic, else 504. */
  lemma AnswerAfterDone(s: State)
    requires Reachable(s) && Left(s.mw)
    ensures s.mw.Answered? ==> s.ctxDone
    ensures s.answer ==
      if !s.mw.Answered? || s.wroteHeader then None else if s.panicked then Some(500) else Some(504)
  {
    ReachableInv(s);
  }

  /** Steps left until both goroutines are done, once the handler proper is over. */
  function Distance(s: State): nat {
    (match s.handler
     case Serving => 6
     case Recovered => 5
     case Recorded => 4
     case SendingPanic => 3
     case SendingFin => 2
     case Finished => 0) +
    (match s.mw
     case Selecting => 4
     case CtxDone => 3
     case Waiting => 2
     case Deciding => 1
     case _ => 0) +
    (if s.ctxDone then 0 else 1)
  }

  /** Every step brings the end closer once the handler proper is over. */
  lemma StepsRunOut(s: State, step: Step)
    requires Reachable(s) && !s.handler.Serving? && Enabled(s, step)
    ensures !Apply(s, step).handler.Serving? && Distance(Apply(s, step)) < Distance(s)
  {
    ReachableInv(s);
  }

  /** Nothing is left hanging: some step of the two is possible until both goroutines are done. */
  lemma BothGoroutinesEnd(s: State)
    requires Reachable(s) && !s.handler.Serving? && !(s.handler.Finished? && Left(s.mw))
    ensures exists step :: Enabled(s, step) && !step.ContextEnds?
  {
    ReachableInv(s);
    var next :=
      if s.handler.Recovered? then Record
      else if s.handler.Recorded? then ReadFlag
      else if s.handler.SendingPanic? then SendPanic
      else if s.handler.SendingFin? then SendFin
      else if s.mw.Selecting? then TakeFin
      else if s.mw.CtxDone? then StoreFlag
      else if s.mw.Waiting? then TakeFinLate
      else Answer;
    assert Enabled(s, next);
  }

  // ---------------------------------------------------------------- whether a panic is raised again

  predicate OfMiddleware(step: Step) {
    step.TakePanic? || step.TakeDone? || step.TakeFin? || step.StoreFlag? || step.TakeFinLate? || step.Answer?
  }

  /**
   While the select stands before a recorded panic, the panic is the only thing it can take
   exactly as long as the handler goroutine has not signalled its end and the context is not done.
   */
  lemma OnlyThePanicIff(s: State)
    requires Reachable(s) && s.mw.Selecting? && s.panicCh == 1
    ensures (forall step :: OfMiddleware(step) && Enabled(s, step) ==> step.TakePanic?) <==> s.finCh == 0 && !s.ctxDone
  {
    ReachableInv(s);
    assert OfMiddleware(TakeFin) && OfMiddleware(TakeDone);
    assert Enabled(s, TakeFin) <==> s.finCh == 1;
    assert Enabled(s, TakeDone) <==> s.ctxDone;
  }

  predicate Selects(step: Step) { step.TakePanic? || step.TakeDone? || step.TakeFin? }

  lemma BranchStep(t: State, step: Step)
    requires Enabled(t, step)
    ensures var s := Apply(t, step);
      if t.mw.Selecting? then Selects(step) || s.mw.Selecting?
      else !s.mw.Selecting? && (s.mw.Repanicked? <==> t.mw.Repanicked?) && (s.mw.Completed? <==> t.mw.Completed?)
  {
  }

  /** The way of leaving is settled once the select has been left. */
  lemma {:induction false} BranchKept(t: State, steps: seq<Step>, s: State)
    requires Run(t, steps, s) && !t.mw.Selecting?
    ensures !s.mw.Selecting? && (s.mw.Repanicked? <==> t.mw.Repanicked?) && (s.mw.Completed? <==> t.mw.Completed?)
    decreases |steps|
  {
    if steps != [] {
      BranchStep(t, steps[0]);
      BranchKept(Apply(t, steps[0]), steps[1..], s);
    }
  }

  lemma {:induction false} SelectFound(t: State, steps: seq<Step>, s: State) returns (k: nat, u: State)
    requires Run(t, steps, s) && t.mw.Selecting? && !s.mw.Selecting?
    ensures k < |steps| && Run(t, steps[..k], u) && u.mw.Selecting? && Enabled(u, steps[k]) && Selects(steps[k])
    ensures Run(Apply(u, steps[k]), steps[k + 1..], s)
    decreases |steps|
  {
    if Selects(steps[0]) {
      k, u := 0, t;
    } else {
      BranchStep(t, steps[0]);
      k, u := SelectFound(Apply(t, steps[0]), steps[1..], s);
      assert steps[1..][..k] == steps[..k + 1][1..] && steps[1..][k + 1..] == steps[k + 2..];
      k := k + 1;
    }
  }

  /**
   Whether the panic of a handler is raised again depends only on the branch that the select
   took, in its state u then: it is not if ctx.Done() was taken, or if finCh was taken although
   the panic was there as well.
   */
  lemma PanicRaisedIff(steps: seq<Step>, s: State) returns (k: nat, u: State)
    requires Run(Initial(), steps, s) && Left(s.mw)
    ensures k < |steps| && Run(Initial(), steps[..k], u) && u.mw.Selecting? && Enabled(u, steps[k]) && Selects(steps[k])
    ensures s.mw.Repanicked? <==> steps[k].TakePanic?
    ensures s.mw.Completed? <==> steps[k].TakeFin?
    ensures s.mw.Answered? <==> steps[k].TakeDone?
    ensures s.panicked && steps[k].TakeFin? ==> u.panicCh == 1 && u.finCh == 1
    ensures steps[k].TakeDone? ==> u.ctxDone
  {
    k, u := SelectFound(Initial(), steps, s);
    BranchKept(Apply(u, steps[k]), steps[k + 1..], s);
    RunInv(Initial(), steps[..k], u);
    if steps[k].TakeFin? {
      FinishedKeepsPanic(Apply(u, steps[k]), steps[k + 1..], s);
    }
  }

  /** A handler goroutine that is over panics no more. */
  lemma {:induction false} FinishedKeepsPanic(t: State, steps: seq<Step>, s: State)
    requires Run(t, steps, s) && t.handler.Finished?
    ensures s.handler.Finished? && s.panicked == t.panicked
    decreases |steps|
  {
    if steps != [] {
      FinishedKeepsPanic(Apply(t, steps[0]), steps[1..], s);
    }
  }

  /** From its last send on, the handler goroutine neither panics nor sends a panic. */
  lemma {:induction false} SendsNoPanic(t: State, steps: seq<Step>, s: State)
    requires Run(t, steps, s) && (t.handler.SendingFin? || t.handler.Finished?)
    ensures s.panicked == t.panicked && SendPanic !in steps
    decreases |steps|
  {
    if steps != [] { SendsNoPanic(Apply(t, steps[0]), steps[1..], s); }
  }

  lemma {:induction false} SendsThePanic(t: State, steps: seq<Step>, s: State)
    requires Run(t, steps, s) && t.handler.SendingPanic? && s.handler.Finished?
    ensures SendPanic in steps
    decreases |steps|
  {
    if steps[0] != SendPanic { SendsThePanic(Apply(t, steps[0]), steps[1..], s); }
  }

  /** The handler goroutine has not looked at the flag yet. */
  predicate BeforeRead(s: State) {
    if s.panicked then s.handler.Recovered? || s.handler.Recorded? else s.handler.Serving?
  }

  lemma BeforeReadStep(t: State, step: Step)
    requires BeforeRead(t) && Enabled(t, step) && step != ReadFlag
    ensures step != SendPanic
    ensures if step == Return then Apply(t, step).handler.SendingFin? && !t.panicked else BeforeRead(Apply(t, step))
  {
  }

  lemma FirstThen(t: State, steps: seq<Step>, k: nat, u: State)
    requires steps != [] && Enabled(t, steps[0]) && k < |steps| && Run(Apply(t, steps[0]), steps[1..][..k], u)
    ensures Run(t, steps[..k + 1], u) && steps[..k + 1] == [steps[0]] + steps[1..][..k]
  {
    assert steps[1..][..k] == steps[..k + 1][1..];
  }

  /** The deferred function of a handler that panicked reads the flag; up to there nothing is sent. */
  lemma {:induction false} ReadFound(t: State, steps: seq<Step>, s: State) returns (k: nat, u: State)
    requires Run(t, steps, s) && s.handler.Finished? && s.panicked && BeforeRead(t)
    ensures k < |steps| && Run(t, steps[..k], u) && BeforeRead(u) && Enabled(u, ReadFlag) && steps[k] == ReadFlag
    ensures SendPanic !in steps[..k] && Run(Apply(u, ReadFlag), steps[k + 1..], s)
    decreases |steps|
  {
    if steps[0] == ReadFlag {
      k, u := 0, t;
    } else {
      BeforeReadStep(t, steps[0]);
      if steps[0] == Return { SendsNoPanic(Apply(t, Return), steps[1..], s); }
      k, u := ReadFound(Apply(t, steps[0]), steps[1..], s);
      FirstThen(t, steps, k, u);
      assert steps[1..][k + 1..] == steps[k + 2..];
      k := k + 1;
    }
  }

  /** A panic is sent exactly if the middleware had not set its flag when the handler looked. */
  lemma PanicSentIff(steps: seq<Step>, s: State) returns (k: nat, u: State)
    requires Run(Initial(), steps, s) && s.handler.Finished? && s.panicked
    ensures k < |steps| && Run(Initial(), steps[..k], u) && steps[k] == ReadFlag
    ensures SendPanic in steps <==> !u.timedOut
  {
    k, u := ReadFound(Initial(), steps, s);
    assert steps == steps[..k] + [ReadFlag] + steps[k + 1..];
    if u.timedOut {
      SendsNoPanic(Apply(u, ReadFlag), steps[k + 1..], s);
    } else {
      SendsThePanic(Apply(u, ReadFlag), steps[k + 1..], s);
    }
  }

  // ---------------------------------------------------------------- what is not promised

  lemma {:induction false} RunThen(s: State, steps: seq<Step>, t: State, step: Step)
    requires Run(s, steps, t) && Enabled(t, step)
    ensures Run(s, steps + [step], Apply(t, step))
    decreases |steps|
  {
    var longer := steps + [step];
    if steps == [] {
      assert longer == [step] && longer[1..] == [];
    } else {
      assert longer[0] == steps[0] && longer[1..] == steps[1..] + [step];
      RunThen(Apply(s, steps[0]), steps[1..], t, step);
    }
  }

  lemma ReachableNext(s: State, step: Step)
    requires Reachable(s) && Enabled(s, step)
    ensures Reachable(Apply(s, step))
  {
    var steps :| Run(Initial(), steps, s);
    RunThen(Initial(), steps, s, step);
  }

  /** A panic need not be raised again: the select may take finCh when both channels are ready. */
  lemma PanicMayBeSwallowed()
    ensures exists s :: Reachable(s) && s.panicked && s.mw.Completed? && !s.ctxDone && s.answer == None
  {
    var s := Initial();
    assert Run(s, [], s);
    ReachableNext(s, Panic);
    s := Apply(s, Panic);
    ReachableNext(s, Record);
    s := Apply(s, Record);
    ReachableNext(s, ReadFlag);
    s := Apply(s, ReadFlag);
    ReachableNext(s, SendPanic);
    s := Apply(s, SendPanic);
    ReachableNext(s, SendFin);
    s := Apply(s, SendFin);
    ReachableNext(s, TakeFin);
    s := Apply(s, TakeFin);
    assert Reachable(s);
  }

  /** The handler has written a body, the deadline has passed, and the middleware waits. */
  function BodyWritten(): State {
    State(Serving, Waiting, true, true, 0, 0, false, false, true, false, None)
  }

  lemma BodyWrittenReached()
    ensures Reachable(BodyWritten())
  {
    var s := Initial();
    assert Run(s, [], s);
    ReachableNext(s, WriteBody);
    s := Apply(s, WriteBody);
    ReachableNext(s, ContextEnds);
    s := Apply(s, ContextEnds);
    ReachableNext(s, TakeDone);
    s := Apply(s, TakeDone);
    ReachableNext(s, StoreFlag);
    assert Apply(s, StoreFlag) == BodyWritten();
  }

  /** A handler that writes a body without WriteHeader gets a 504 on top after a timeout. */
  lemma BodyAloneIsNotSeen()
    ensures exists s ::
      Reachable(s) && s.wroteBody && !s.panicked && s.mw.Answered? && s.answer == Some(504)
  {
    BodyWrittenReached();
    var s := BodyWritten();
    ReachableNext(s, Return);
    s := Apply(s, Return);
    ReachableNext(s, SendFin);
    s := Apply(s, SendFin);
    ReachableNext(s, TakeFinLate);
    s := Apply(s, TakeFinLate);
    ReachableNext(s, Answer);
    s := Apply(s, Answer);
    assert Reachable(s);
  }
}
