/** Crash recovery: no claimed row is lost, whatever the interleaving of separate recovery steps. */
module BatchNoLoss {
  import opened BatchProtocol
  import opened BatchStructure
  import Loop = BatchLoop
  import Summ = BatchSummary

  /** The current row, once it has left the rows-set and its error is being handled. */
  function Untracked(w: Worker): set<RowId> {
    if w.Tracking? then w.untracked
    else if w.Looping? && w.at.AtRow? && !w.at.pc.Running? && !w.at.pc.Untracking? && !w.at.pc.SlowWritten?
    then {w.at.r}
    else {}
  }

  ghost predicate InstOk(x: Inst) {
    && (Alive(x.worker) ==> x.registered && x.beating)
    && (forall r :: r in Unfinished(x.worker) && r !in Untracked(x.worker) ==> r in x.tracked)
  }

  ghost predicate InstsOk(s: State) {
    forall i :: i in s.insts ==> InstOk(s.insts[i])
  }

  /** Where an inprog row can be found: with its last claimer, or stranded. */
  ghost predicate OwnerOk(s: State, r: RowId)
    requires r in s.rows
  {
    s.rows[r].status.Inprog? ==>
      && s.rows[r].owner in s.insts
      && var x := s.insts[s.rows[r].owner];
         && !x.worker.Stopped?
         && (Alive(x.worker) ==> r in Unfinished(x.worker))
         && (x.worker.Dead? ==> (x.registered && r in x.tracked) || r in s.stranded)
  }

  ghost predicate OwnersOk(s: State) {
    forall r :: r in s.rows ==> OwnerOk(s, r)
  }

  /**
   A recovery works on an instance that is gone; it holds every id the set still has; and once
   it has reset them, an inprog row among them was claimed again, by somebody else.
   */
  ghost predicate RecOk(s: State, c: Rec) {
    && c.target in s.insts && !Alive(s.insts[c.target].worker) && !s.insts[c.target].beating
    && s.insts[c.target].tracked <= c.ids
    && (!c.phase.HasRead? ==>
          forall r :: r in c.ids && r in s.rows && s.rows[r].status.Inprog? ==> s.rows[r].owner != c.target)
    && (c.phase.HasDeleted? ==> s.insts[c.target].tracked == {})
  }

  ghost predicate RecsOk(s: State) {
    forall p :: p in s.recs ==> RecOk(s, s.recs[p])
  }

  ghost predicate Inv(s: State) {
    Loop.Inv(s) && InstsOk(s) && OwnersOk(s) && RecsOk(s)
  }

  // ---------------------------------------------------------------- preservation

  lemma RecFrame(s: State, op: RecOp)
    requires Inv(s) && RecEnabled(s, op)
    ensures var t := ApplyRec(s, op);
      && t.insts.Keys == s.insts.Keys
      && (forall j :: j in s.insts ==>
            && t.insts[j].worker == s.insts[j].worker && t.insts[j].beating == s.insts[j].beating
            && t.insts[j].tracked <= s.insts[j].tracked && (Alive(s.insts[j].worker) ==> t.insts[j] == s.insts[j]))
      && t.stranded == s.stranded && t.rows.Keys == s.rows.Keys
      && (forall r :: r in s.rows ==>
            t.rows[r].owner == s.rows[r].owner && (t.rows[r].status.Inprog? ==> s.rows[r].status.Inprog?))
  {}

  lemma OwnersCaller(s: State, c: CallerOp)
    requires Inv(s) && CallerEnabled(s, c)
    ensures var t := ApplyCaller(s, c); InstsOk(t) && OwnersOk(t) && RecsOk(t)
  {
    CallerFrame(s, c);
    var t := ApplyCaller(s, c);
    forall r | r in t.rows && t.rows[r].status.Inprog?
      ensures OwnerOk(t, r) && r in s.rows && t.rows[r].owner == s.rows[r].owner && s.rows[r].status.Inprog?
    {
      assert r in s.rows && OwnerOk(s, r);
    }
    forall p | p in t.recs ensures RecOk(t, t.recs[p]) { assert RecOk(s, s.recs[p]); }
  }

  lemma OwnersLife(s: State, i: Instance, life: LifeOp)
    requires Inv(s) && LifeEnabled(s, i, life)
    ensures var t := ApplyLife(s, i, life); InstsOk(t) && OwnersOk(t) && RecsOk(t)
  {
    var t := ApplyLife(s, i, life);
    forall r | r in t.rows ensures OwnerOk(t, r) { assert OwnerOk(s, r); }
    forall p | p in t.recs ensures RecOk(t, t.recs[p]) { assert RecOk(s, s.recs[p]); }
  }

  lemma OwnersBlock(s: State, i: Instance, op: BlockOp)
    requires Inv(s) && BlockEnabled(s, i, op)
    ensures var t := ApplyBlock(s, i, op); InstsOk(t) && OwnersOk(t) && RecsOk(t)
  {
    var t := ApplyBlock(s, i, op);
    forall r | r in t.rows ensures OwnerOk(t, r) { assert OwnerOk(s, r); }
    forall p | p in t.recs ensures RecOk(t, t.recs[p]) { assert RecOk(s, s.recs[p]); }
  }

  lemma InstRow(s: State, i: Instance, op: RowOp)
    requires Inv(s) && RowEnabled(s, i, op)
    ensures InstOk(ApplyRow(s, i, op).insts[i])
  {
    assert InstOk(s.insts[i]) && WorkerOk(s, s.insts[i].worker);
  }

  /** A row that leaves `left` is terminal. */
  lemma LeavesTerminal(s: State, i: Instance, op: RowOp)
    requires Inv(s) && RowEnabled(s, i, op) && Loop.Inv(ApplyRow(s, i, op))
    ensures var t := ApplyRow(s, i, op);
      && t.insts[i].worker.Looping? && t.insts[i].worker.block == s.insts[i].worker.block
      && forall r :: r in s.insts[i].worker.left && r !in t.insts[i].worker.left ==>
          r in t.rows && Terminal(t.rows[r].status)
  {
    RowFrame(s, i, op);
    assert Loop.LoopOk(ApplyRow(s, i, op).rows, ApplyRow(s, i, op).insts[i].worker);
    assert WorkerOk(s, s.insts[i].worker);
  }

  lemma RowsOfRow(s: State, i: Instance, op: RowOp)
    requires RowEnabled(s, i, op)
    ensures var t := ApplyRow(s, i, op);
      forall r :: r in s.rows ==>
        r in t.rows && t.rows[r].owner == s.rows[r].owner && (t.rows[r].status.Inprog? ==> s.rows[r].status.Inprog?)
  {}

  lemma OwnersRow(s: State, i: Instance, op: RowOp)
    requires Inv(s) && RowEnabled(s, i, op) && Loop.Inv(ApplyRow(s, i, op))
    ensures var t := ApplyRow(s, i, op); InstsOk(t) && OwnersOk(t) && RecsOk(t)
  {
    InstRow(s, i, op);
    var t := ApplyRow(s, i, op);
    RowFrame(s, i, op);
    RowsOfRow(s, i, op);
    LeavesTerminal(s, i, op);
    forall r | r in t.rows ensures OwnerOk(t, r) { assert OwnerOk(s, r); }
    forall p | p in t.recs ensures RecOk(t, t.recs[p]) { assert RecOk(s, s.recs[p]); }
  }

  lemma OwnersRec(s: State, op: RecOp)
    requires Inv(s) && RecEnabled(s, op)
    ensures var t := ApplyRec(s, op); InstsOk(t) && OwnersOk(t) && RecsOk(t)
  {
    RecFrame(s, op);
    var t := ApplyRec(s, op);
    forall r | r in t.rows ensures OwnerOk(t, r) { assert OwnerOk(s, r); }
    forall p | p in t.recs ensures RecOk(t, t.recs[p]) { if p in s.recs { assert RecOk(s, s.recs[p]); } }
  }

  lemma StepInv(s: State, step: Step)
    requires Inv(s) && Enabled(s, step)
    ensures Inv(Apply(s, step))
  {
    Loop.StepLoops(s, step);
    match step
    case Caller(c) => OwnersCaller(s, c);
    case Life(i, life) => OwnersLife(s, i, life);
    case Block(i, op) => OwnersBlock(s, i, op);
    case InLoop(i, op) => OwnersRow(s, i, op);
    case Sweep =>
    case Summary(b, op) => SumFrame(s, b, op);
    case Recovery(op) => OwnersRec(s, op);
  }

  lemma {:induction false} RunInv(s: State, steps: seq<Step>, t: State)
    requires Inv(s) && Run(s, steps, t)
    ensures Inv(t)
    decreases |steps|
  {
    if steps != [] {
      StepInv(s, steps[0]);
      RunInv(Apply(s, steps[0]), steps[1..], t);
    }
  }

  lemma ReachableInv(s: State)
    requires Reachable(s)
    ensures Inv(s)
  {
    var steps :| Run(Initial(s.chunk), steps, s);
    RunInv(Initial(s.chunk), steps, s);
  }

  // ---------------------------------------------------------------- results

  /**
   No row is lost: an inprog row is in the unfinished block of the live instance that claimed
   it last, or in the rows-set of that instance, dead but still registered, or stranded.
   Recovery may read, reset, delete and deregister in separate steps and give up in between.
   */
  lemma NoRowLost(s: State, r: RowId)
    requires Reachable(s) && r in s.rows && s.rows[r].status.Inprog?
    ensures s.rows[r].owner in s.insts
    ensures var x := s.insts[s.rows[r].owner];
      || (Alive(x.worker) && r in Unfinished(x.worker))
      || (x.worker.Dead? && x.registered && r in x.tracked)
      || (x.worker.Dead? && r in s.stranded)
  {
    ReachableInv(s);
    assert OwnerOk(s, r);
  }

  /**
   A row becomes stranded only by a crash in one of two windows: the claim has committed and
   the row is not tracked yet, or the row is untracked and its error handler has not run.
   */
  lemma StrandedOnlyInWindows(s: State, step: Step, r: RowId)
    requires Reachable(s) && Enabled(s, step) && r in Apply(s, step).stranded && r !in s.stranded
    ensures step.Life? && step.life.Crash? && step.i in s.insts
    ensures var w := s.insts[step.i].worker;
      || (w.Tracking? && r in w.untracked)
      || (w.Looping? && (w.at == AtRow(r, RowFailing(false)) || (w.at.AtRow? && w.at.r == r && w.at.pc.BulkFailing?)))
  {
    ReachableInv(s);
    StrandedFrame(s, step);
    assert OwnerOk(s, r) && InstOk(s.insts[step.i]);
    assert Loop.LoopOk(s.rows, s.insts[step.i].worker);
  }

  lemma StrandedFrame(s: State, step: Step)
    requires Enabled(s, step)
    ensures !(step.Life? && step.life.Crash?) ==> Apply(s, step).stranded == s.stranded
  {
    match step
    case Caller(c) => CallerFrame(s, c);
    case Block(i, op) => BlockFrame(s, i, op);
    case InLoop(i, op) => RowFrame(s, i, op);
    case Summary(b, op) => SumFrame(s, b, op);
    case Recovery(op) =>
    case _ =>
  }

  /** An inprog row is never locked by a summarisation, so a reset never waits for one. */
  lemma ResetNeverWaits(s: State, ids: set<RowId>)
    requires Reachable(s)
    ensures ResetEnabled(s, ids)
  {
    Summ.ReachableInv(s);
    forall r | r in Resettable(s, ids)
      ensures !RowsLocked(s, s.rows[r].batch)
    {
      var b := s.rows[r].batch;
      if b in s.sums {
        assert Summ.SumOk(s, b, s.sums[b]);
        assert Summ.SumRowOk(s.sums[b], r, s.rows[r]);
      }
    }
  }

  /**
   What is not stranded comes back: once the heartbeat of the dead owner has expired, one
   recovery puts the row back in the queue, whatever else is going on.
   */
  lemma LostRowComesBack(s: State, r: RowId)
    requires Reachable(s) && r in s.rows && s.rows[r].status.Inprog? && r !in s.stranded
    requires s.rows[r].owner in s.insts ==> !Alive(s.insts[s.rows[r].owner].worker)
    ensures var d := s.rows[r].owner;
      && d in s.insts
      && var t := Apply(s, Life(d, Expire));
         && Enabled(t, Recovery(Atomic(d)))
         && var u := Apply(t, Recovery(Atomic(d)));
            r in u.rows && u.rows[r].status.Queued? && !u.insts[d].registered && u.insts[d].tracked == {}
  {
    ReachableInv(s);
    assert OwnerOk(s, r);
    ResetNeverWaits(s, s.insts[s.rows[r].owner].tracked);
  }
}
