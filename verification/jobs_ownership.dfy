/**
 Who has a row to write: exclusive ownership in runs without aborts and without configuration
 errors, with recovery as separate statements, and exactly when it holds.
 */
module BatchOwnership {
  import opened BatchProtocol
  import opened BatchStructure
  import Loop = BatchLoop
  import NoLoss = BatchNoLoss

  /** Rows of the block that the worker has still to write. */
  function Unwritten(w: Worker): set<RowId> {
    if w.Looping? && w.at.AtRow? && Loop.Written(w.at.pc) then w.left - {w.at.r} else Unfinished(w)
  }

  /** Rows of the block that the worker has still to hand to the processor. */
  function Unrun(w: Worker): set<RowId> {
    if w.Looping? && w.at.AtRow? then w.left - {w.at.r} else Unfinished(w)
  }

  /** No configuration error has reached the worker. */
  predicate NoConfig(w: Worker) {
    w.Looping? ==>
      && w.keys == {}
      && (w.at.AtRow? ==>
            && !w.at.pc.BulkFailing? && !w.at.pc.BatchFailing? && w.at.pc != RowFailing(true)
            && !(w.at.pc.Untracking? && w.at.pc.err.ConfigErr?))
  }

  ghost predicate Owned(s: State, i: Instance, w: Worker) {
    && NoConfig(w)
    && (forall r :: r in Unwritten(w) ==> r in s.rows && s.rows[r].status.Inprog? && s.rows[r].owner == i)
    && (forall r :: r in Unrun(w) ==> r in s.rows && s.rows[r].unrun)
  }

  ghost predicate WorkersOwn(s: State) {
    forall i :: i in s.insts ==> Owned(s, i, s.insts[i].worker)
  }

  ghost predicate Inv(s: State) {
    NoLoss.Inv(s) && WorkersOwn(s)
  }

  /** Every row that some worker has still to write is inprog, claimed last by it, and nobody else's. */
  ghost predicate Exclusive(s: State) {
    forall i, r :: i in s.insts && r in Unwritten(s.insts[i].worker) ==>
      && r in s.rows && s.rows[r].status.Inprog? && s.rows[r].owner == i
      && forall j :: j in s.insts && j != i ==> r !in Unwritten(s.insts[j].worker)
  }

  /** The step takes no row away from a live worker. */
  ghost predicate SparesLive(s: State, step: Step) {
    forall r :: r in ResetIds(s, step) && r in s.rows && s.rows[r].owner in s.insts ==>
      !Alive(s.insts[s.rows[r].owner].worker)
  }

  lemma InvExclusive(s: State)
    requires WorkersOwn(s)
    ensures Exclusive(s)
  {
    forall i, r | i in s.insts && r in Unwritten(s.insts[i].worker)
      ensures r in s.rows && s.rows[r].status.Inprog? && s.rows[r].owner == i
      ensures forall j :: j in s.insts && j != i ==> r !in Unwritten(s.insts[j].worker)
    {
      assert Owned(s, i, s.insts[i].worker);
      forall j | j in s.insts && j != i
        ensures r !in Unwritten(s.insts[j].worker)
      {
        assert Owned(s, j, s.insts[j].worker);
      }
    }
  }

  // ---------------------------------------------------------------- steps of a worker

  /** A row step changes the status of a row only if the worker has still to write it. */
  lemma WritesOnlyOwn(s: State, i: Instance, op: RowOp)
    requires Inv(s) && RowEnabled(s, i, op) && !op.Refuse?
    ensures var t := ApplyRow(s, i, op);
      && i in s.insts && t.rows.Keys == s.rows.Keys
      && forall r :: r in s.rows ==>
           && t.rows[r].batch == s.rows[r].batch && t.rows[r].line == s.rows[r].line
           && t.rows[r].owner == s.rows[r].owner
           && (t.rows[r].status != s.rows[r].status ==> r in Unwritten(s.insts[i].worker) && Terminal(t.rows[r].status))
           && (t.rows[r].unrun != s.rows[r].unrun ==> !t.rows[r].unrun && r in Unrun(s.insts[i].worker))
  {
    RowFrame(s, i, op);
    assert Owned(s, i, s.insts[i].worker) && WorkerOk(s, s.insts[i].worker);
  }

  lemma NoConfigRow(s: State, i: Instance, op: RowOp)
    requires Inv(s) && RowEnabled(s, i, op) && !op.Refuse?
    ensures NoConfig(ApplyRow(s, i, op).insts[i].worker)
  {
    RowFrame(s, i, op);
    assert Owned(s, i, s.insts[i].worker);
  }

  /** What the worker has still to write and run only shrinks, and keeps its status. */
  lemma WritesWhatIsLeft(s: State, i: Instance, op: RowOp)
    requires Inv(s) && RowEnabled(s, i, op) && !op.Refuse?
    ensures var t := ApplyRow(s, i, op);
      i in s.insts && i in t.insts &&
      var w, w' := s.insts[i].worker, t.insts[i].worker;
      && Unwritten(w') <= Unwritten(w) && Unrun(w') <= Unrun(w)
      && (forall r :: r in Unwritten(w') && r in s.rows ==> t.rows[r].status == s.rows[r].status)
      && (forall r :: r in Unrun(w') && r in s.rows ==> t.rows[r].unrun == s.rows[r].unrun)
  {
    RowFrame(s, i, op);
    assert Owned(s, i, s.insts[i].worker) && WorkerOk(s, s.insts[i].worker);
  }

  lemma OwnedRow(s: State, i: Instance, op: RowOp)
    requires Inv(s) && RowEnabled(s, i, op) && !op.Refuse?
    ensures WorkersOwn(ApplyRow(s, i, op))
  {
    var t := ApplyRow(s, i, op);
    RowFrame(s, i, op);
    NoConfigRow(s, i, op);
    WritesOnlyOwn(s, i, op);
    WritesWhatIsLeft(s, i, op);
    assert Owned(s, i, s.insts[i].worker);
    forall j | j in t.insts
      ensures Owned(t, j, t.insts[j].worker)
    {
      assert Owned(s, j, s.insts[j].worker);
    }
  }

  lemma OwnedBlock(s: State, i: Instance, op: BlockOp)
    requires Inv(s) && BlockEnabled(s, i, op)
    ensures WorkersOwn(ApplyBlock(s, i, op))
  {
    BlockFrame(s, i, op);
    var t := ApplyBlock(s, i, op);
    forall j | j in t.insts
      ensures Owned(t, j, t.insts[j].worker)
    {
      assert Owned(s, j, s.insts[j].worker) && WorkerOk(s, s.insts[i].worker);
    }
  }

  lemma OwnedLife(s: State, i: Instance, life: LifeOp)
    requires Inv(s) && LifeEnabled(s, i, life)
    ensures WorkersOwn(ApplyLife(s, i, life))
  {
    var t := ApplyLife(s, i, life);
    forall j | j in t.insts
      ensures Owned(t, j, t.insts[j].worker)
    {
      assert j in s.insts ==> Owned(s, j, s.insts[j].worker);
    }
  }

  lemma OldRowsKept(s: State, c: CallerOp)
    requires CallerEnabled(s, c) && !c.Abort?
    ensures var t := ApplyCaller(s, c); forall r :: r in s.rows ==> r in t.rows && t.rows[r] == s.rows[r]
  {}

  lemma OwnedCaller(s: State, c: CallerOp)
    requires Inv(s) && CallerEnabled(s, c) && !c.Abort?
    ensures WorkersOwn(ApplyCaller(s, c))
  {
    CallerFrame(s, c);
    OldRowsKept(s, c);
    var t := ApplyCaller(s, c);
    forall j | j in t.insts
      ensures Owned(t, j, t.insts[j].worker)
    {
      assert Owned(s, j, s.insts[j].worker);
    }
  }

  lemma OwnedRec(s: State, op: RecOp)
    requires Inv(s) && RecEnabled(s, op) && SparesLive(s, Recovery(op))
    ensures WorkersOwn(ApplyRec(s, op))
  {
    NoLoss.RecFrame(s, op);
    var t, hit := ApplyRec(s, op), ResetIds(s, Recovery(op));
    forall r | r in s.rows && r !in hit
      ensures r in t.rows && t.rows[r] == s.rows[r]
    {}
    forall j | j in t.insts
      ensures Owned(t, j, t.insts[j].worker)
    {
      assert Owned(s, j, s.insts[j].worker);
      assert Unrun(s.insts[j].worker) <= Unwritten(s.insts[j].worker);
    }
  }

  lemma StepInv(s: State, step: Step)
    requires Inv(s) && Enabled(s, step) && Plain(step) && SparesLive(s, step)
    ensures Inv(Apply(s, step))
  {
    NoLoss.StepInv(s, step);
    match step
    case Caller(c) => OwnedCaller(s, c);
    case Life(i, life) => OwnedLife(s, i, life);
    case Block(i, op) => OwnedBlock(s, i, op);
    case InLoop(i, op) => OwnedRow(s, i, op);
    case Sweep =>
    case Summary(b, op) => SumFrame(s, b, op);
    case Recovery(op) => OwnedRec(s, op);
  }

  // ---------------------------------------------------------------- a reset of a live worker's row

  /** In every reachable state, aborts and configuration errors included, such a reset ends ownership at once. */
  lemma LiveResetBreaks(s: State, step: Step)
    requires NoLoss.Inv(s) && Enabled(s, step) && !SparesLive(s, step)
    ensures !Exclusive(Apply(s, step))
  {
    var r :| r in ResetIds(s, step) && r in s.rows && s.rows[r].owner in s.insts &&
      Alive(s.insts[s.rows[r].owner].worker);
    var i := s.rows[r].owner;
    var w := s.insts[i].worker;
    assert NoLoss.OwnerOk(s, r) && Loop.LoopOk(s.rows, w);
    assert r in Unwritten(w);
    NoLoss.RecFrame(s, step.rec);
    ResetQueues(s, step, r);
    var t := Apply(s, step);
    assert i in t.insts && t.insts[i].worker == w;
  }

  lemma ResetQueues(s: State, step: Step, r: RowId)
    requires Enabled(s, step) && r in ResetIds(s, step)
    ensures r in Apply(s, step).rows && Apply(s, step).rows[r].status.Queued?
  {
  }

  // ---------------------------------------------------------------- results

  /** Ownership holds now and after every step of the run. */
  ghost predicate AlwaysExclusive(s: State, steps: seq<Step>)
    decreases |steps|
  {
    Exclusive(s) && (steps == [] || (Enabled(s, steps[0]) && AlwaysExclusive(Apply(s, steps[0]), steps[1..])))
  }

  /** No step of the run takes a row away from a live worker. */
  ghost predicate AlwaysSparesLive(s: State, steps: seq<Step>)
    decreases |steps|
  {
    steps == [] || (Enabled(s, steps[0]) && SparesLive(s, steps[0]) && AlwaysSparesLive(Apply(s, steps[0]), steps[1..]))
  }

  lemma {:induction false} ExclusiveFrom(s: State, steps: seq<Step>, t: State)
    requires Inv(s) && Run(s, steps, t) && AllPlain(steps)
    ensures AlwaysExclusive(s, steps) <==> AlwaysSparesLive(s, steps)
    decreases |steps|
  {
    InvExclusive(s);
    if steps != [] {
      var next := Apply(s, steps[0]);
      assert Plain(steps[0]);
      assert AllPlain(steps[1..]);
      if SparesLive(s, steps[0]) {
        StepInv(s, steps[0]);
        ExclusiveFrom(next, steps[1..], t);
      } else {
        LiveResetBreaks(s, steps[0]);
      }
    }
  }

  /**
   Exclusive ownership along a run, with recovery reading, resetting and deleting in separate
   steps: it holds throughout exactly when no reset touches an inprog row whose last claimer is
   alive.  The UPDATE asks for inprog only.
   */
  lemma ExclusiveIff(chunk: nat, steps: seq<Step>, t: State)
    requires Run(Initial(chunk), steps, t) && AllPlain(steps)
    ensures AlwaysExclusive(Initial(chunk), steps) <==> AlwaysSparesLive(Initial(chunk), steps)
  {
    ExclusiveFrom(Initial(chunk), steps, t);
  }

  /** The guard that would do: a reset for instance d touches only rows that d claimed last. */
  ghost predicate Guarded(s: State, step: Step) {
    && (step.Recovery? && step.rec.Reset? && step.rec.p in s.recs ==>
          forall r :: r in ResetIds(s, step) && r in s.rows ==> s.rows[r].owner == s.recs[step.rec.p].target)
    && (step.Recovery? && step.rec.Atomic? ==>
          forall r :: r in ResetIds(s, step) && r in s.rows ==> s.rows[r].owner == step.rec.d)
  }

  lemma GuardedSparesLive(s: State, step: Step)
    requires NoLoss.Inv(s) && Enabled(s, step) && Guarded(s, step)
    ensures SparesLive(s, step)
  {
    if step.Recovery? && step.rec.Reset? {
      assert NoLoss.RecOk(s, s.recs[step.rec.p]);
    } else if step.Recovery? && step.rec.Atomic? {
      assert NoLoss.InstOk(s.insts[step.rec.d]);
    }
  }

  ghost predicate AlwaysGuarded(s: State, steps: seq<Step>)
    decreases |steps|
  {
    steps == [] || (Enabled(s, steps[0]) && Guarded(s, steps[0]) && AlwaysGuarded(Apply(s, steps[0]), steps[1..]))
  }

  lemma {:induction false} GuardedRunSpares(s: State, steps: seq<Step>, t: State)
    requires NoLoss.Inv(s) && Run(s, steps, t) && AlwaysGuarded(s, steps)
    ensures AlwaysSparesLive(s, steps)
    decreases |steps|
  {
    if steps != [] {
      GuardedSparesLive(s, steps[0]);
      NoLoss.StepInv(s, steps[0]);
      GuardedRunSpares(Apply(s, steps[0]), steps[1..], t);
    }
  }

  /** With that guard ownership always holds. */
  lemma GuardedIsExclusive(chunk: nat, steps: seq<Step>, t: State)
    requires Run(Initial(chunk), steps, t) && AllPlain(steps) && AlwaysGuarded(Initial(chunk), steps)
    ensures AlwaysExclusive(Initial(chunk), steps)
  {
    GuardedRunSpares(Initial(chunk), steps, t);
    ExclusiveIff(chunk, steps, t);
  }
}
