/**
 Runs without aborts, without configuration errors and with recovery as one atomic step: what
 instances track, exclusive ownership, and the fate of stranded rows.
 */
module BatchClean {
  import opened BatchProtocol
  import opened BatchStructure
  import opened BatchOwnership
  import Own = BatchOwnership
  import Summ = BatchSummary

  /** A tracked row is terminal, or still inprog for the instance that tracks it. */
  predicate TrackedOk(row: Row, i: Instance) {
    Terminal(row.status) || (row.status.Inprog? && row.owner == i)
  }

  ghost predicate TracksOwn(s: State, i: Instance)
    requires i in s.insts
  {
    forall r :: r in s.insts[i].tracked ==> r in s.rows && TrackedOk(s.rows[r], i)
  }

  ghost predicate AllTrackOwn(s: State) {
    s.recs == map[] && forall i :: i in s.insts ==> TracksOwn(s, i)
  }

  /** What was reset inside a summarisation is still queued: the batch lock keeps claims out. */
  ghost predicate DirtyQueued(s: State) {
    forall b, r :: b in s.sums && r in s.sums[b].dirty ==> r in s.rows && s.rows[r].status.Queued?
  }

  ghost predicate StrandedOk(s: State) {
    forall r :: r in s.stranded ==>
      && r in s.rows && s.rows[r].status.Inprog? && s.rows[r].owner in s.insts
      && s.insts[s.rows[r].owner].worker.Dead? && r !in s.insts[s.rows[r].owner].tracked
  }

  ghost predicate Ordinary(s: State, b: BatchId) {
    forall r :: r in s.rows && s.rows[r].batch == b ==> s.rows[r].line != 0
  }

  ghost predicate Inv(s: State) {
    Own.Inv(s) && Summ.Inv(s) && AllTrackOwn(s) && DirtyQueued(s) && StrandedOk(s)
  }

  // ---------------------------------------------------------------- tracked rows

  lemma TracksRow(s: State, i: Instance, op: RowOp)
    requires Inv(s) && RowEnabled(s, i, op) && !op.Refuse?
    ensures AllTrackOwn(ApplyRow(s, i, op))
  {
    RowFrame(s, i, op);
    WritesOnlyOwn(s, i, op);
    UntracksOnly(s, i, op);
    var t := ApplyRow(s, i, op);
    forall j | j in t.insts
      ensures TracksOwn(t, j)
    {
      assert TracksOwn(s, j);
    }
  }

  lemma UntracksOnly(s: State, i: Instance, op: RowOp)
    requires RowEnabled(s, i, op)
    ensures i in s.insts && ApplyRow(s, i, op).insts[i].tracked <= s.insts[i].tracked
  {}

  lemma TracksBlock(s: State, i: Instance, op: BlockOp)
    requires Inv(s) && BlockEnabled(s, i, op)
    ensures AllTrackOwn(ApplyBlock(s, i, op))
  {
    BlockFrame(s, i, op);
    var t := ApplyBlock(s, i, op);
    forall j | j in t.insts
      ensures TracksOwn(t, j)
    {
      assert TracksOwn(s, j) && WorkerOk(s, s.insts[i].worker) && Owned(s, i, s.insts[i].worker);
    }
  }

  lemma TracksLife(s: State, i: Instance, life: LifeOp)
    requires Inv(s) && LifeEnabled(s, i, life)
    ensures AllTrackOwn(ApplyLife(s, i, life))
  {
    var t := ApplyLife(s, i, life);
    forall j | j in t.insts ensures TracksOwn(t, j) { assert j in s.insts ==> TracksOwn(s, j); }
  }

  lemma TracksCaller(s: State, c: CallerOp)
    requires Inv(s) && CallerEnabled(s, c) && !c.Abort?
    ensures AllTrackOwn(ApplyCaller(s, c))
  {
    CallerFrame(s, c);
    var t := ApplyCaller(s, c);
    OldRowsKept(s, c);
    forall j | j in t.insts ensures TracksOwn(t, j) { assert TracksOwn(s, j); }
  }

  /** The rows that recovery as one step resets belong to the dead instance, so it spares the live. */
  lemma AtomicHitsOwn(s: State, d: Instance)
    requires Inv(s) && RecEnabled(s, Atomic(d))
    ensures forall r :: r in Resettable(s, s.insts[d].tracked) ==> r in s.rows && s.rows[r].owner == d
    ensures Guarded(s, Recovery(Atomic(d))) && SparesLive(s, Recovery(Atomic(d)))
  {
    assert TracksOwn(s, d);
    GuardedSparesLive(s, Recovery(Atomic(d)));
  }

  lemma TracksRec(s: State, d: Instance)
    requires Inv(s) && RecEnabled(s, Atomic(d))
    ensures AllTrackOwn(ApplyRec(s, Atomic(d)))
  {
    AtomicHitsOwn(s, d);
    var t := ApplyRec(s, Atomic(d));
    forall j | j in t.insts
      ensures TracksOwn(t, j)
    {
      assert TracksOwn(s, j);
    }
  }

  // ---------------------------------------------------------------- dirty and stranded rows

  lemma RowKeepsQueued(s: State, i: Instance, op: RowOp)
    requires Inv(s) && RowEnabled(s, i, op) && !op.Refuse?
    ensures DirtyQueued(ApplyRow(s, i, op)) && StrandedOk(ApplyRow(s, i, op))
  {
    RowFrame(s, i, op);
    WritesOnlyOwn(s, i, op);
    assert Owned(s, i, s.insts[i].worker);
  }

  lemma BlockKeepsQueued(s: State, i: Instance, op: BlockOp)
    requires Inv(s) && BlockEnabled(s, i, op)
    ensures DirtyQueued(ApplyBlock(s, i, op)) && StrandedOk(ApplyBlock(s, i, op))
  {
    BlockFrame(s, i, op);
    forall b | b in s.sums ensures Summ.SumOk(s, b, s.sums[b]) {}
  }

  lemma LifeKeepsQueued(s: State, i: Instance, life: LifeOp)
    requires Inv(s) && LifeEnabled(s, i, life)
    ensures DirtyQueued(ApplyLife(s, i, life)) && StrandedOk(ApplyLife(s, i, life))
  {}

  lemma SumKeepsQueued(s: State, b: BatchId, op: SumOp)
    requires Inv(s) && SumEnabled(s, b, op)
    ensures DirtyQueued(ApplySum(s, b, op)) && StrandedOk(ApplySum(s, b, op))
  {
    SumFrame(s, b, op);
    var t := ApplySum(s, b, op);
    forall c | c in t.sums
      ensures c in s.sums && c != b ==> t.sums[c] == s.sums[c]
      ensures t.sums[c].dirty != {} ==> c in s.sums && t.sums[c].dirty == s.sums[c].dirty
    {
      assert c != b ==> c in t.sums - {b} && t.sums[c] == (t.sums - {b})[c] == (s.sums - {b})[c];
    }
  }

  lemma RecKeepsQueued(s: State, d: Instance)
    requires Inv(s) && RecEnabled(s, Atomic(d))
    ensures DirtyQueued(ApplyRec(s, Atomic(d))) && StrandedOk(ApplyRec(s, Atomic(d)))
  {
    AtomicHitsOwn(s, d);
  }

  // ---------------------------------------------------------------- runs

  lemma CleanSparesLive(s: State, step: Step)
    requires Inv(s) && Enabled(s, step) && Clean(step)
    ensures SparesLive(s, step)
  {
    if step.Recovery? { AtomicHitsOwn(s, step.rec.d); }
  }

  lemma StepTracks(s: State, step: Step)
    requires Inv(s) && Enabled(s, step) && Clean(step)
    ensures AllTrackOwn(Apply(s, step))
  {
    match step
    case Caller(c) => TracksCaller(s, c);
    case Life(i, life) => TracksLife(s, i, life);
    case Block(i, op) => TracksBlock(s, i, op);
    case InLoop(i, op) => TracksRow(s, i, op);
    case Sweep =>
    case Summary(b, op) => SumFrame(s, b, op);
    case Recovery(op) => TracksRec(s, op.d);
  }

  lemma StepQueued(s: State, step: Step)
    requires Inv(s) && Enabled(s, step) && Clean(step)
    ensures DirtyQueued(Apply(s, step)) && StrandedOk(Apply(s, step))
  {
    match step
    case Caller(c) => CallerFrame(s, c); OldRowsKept(s, c);
    case Life(i, life) => LifeKeepsQueued(s, i, life);
    case Block(i, op) => BlockKeepsQueued(s, i, op);
    case InLoop(i, op) => RowKeepsQueued(s, i, op);
    case Sweep =>
    case Summary(b, op) => SumKeepsQueued(s, b, op);
    case Recovery(op) => RecKeepsQueued(s, op.d);
  }

  lemma StepInv(s: State, step: Step)
    requires Inv(s) && Enabled(s, step) && Clean(step)
    ensures Inv(Apply(s, step))
  {
    CleanSparesLive(s, step);
    Own.StepInv(s, step);
    Summ.StepInv(s, step);
    StepTracks(s, step);
    StepQueued(s, step);
  }

  lemma {:induction false} RunInv(s: State, steps: seq<Step>, t: State)
    requires Inv(s) && Run(s, steps, t) && AllClean(steps)
    ensures Inv(t) && AlwaysSparesLive(s, steps)
    decreases |steps|
  {
    if steps != [] {
      assert Clean(steps[0]);
      StepInv(s, steps[0]);
      CleanSparesLive(s, steps[0]);
      assert AllClean(steps[1..]);
      RunInv(Apply(s, steps[0]), steps[1..], t);
    }
  }

  lemma ReachableInv(s: State)
    requires CleanReachable(s)
    ensures Inv(s)
  {
    var steps :| Run(Initial(s.chunk), steps, s) && AllClean(steps);
    RunInv(Initial(s.chunk), steps, s);
  }

  // ---------------------------------------------------------------- results

  /** With recovery as one step no reset takes a row from a live worker, so ownership holds throughout. */
  lemma CleanIsExclusive(chunk: nat, steps: seq<Step>, t: State)
    requires Run(Initial(chunk), steps, t) && AllClean(steps)
    ensures AlwaysExclusive(Initial(chunk), steps)
  {
    RunInv(Initial(chunk), steps, t);
    assert AllPlain(steps);
    ExclusiveIff(chunk, steps, t);
  }

  /**
   Exclusive ownership: a row that a live worker has still to write is inprog, it was claimed
   last by that worker, no other live worker has it to write, and recovery of a dead instance
   never resets it.
   */
  lemma ExclusiveOwnership(s: State, i: Instance, r: RowId)
    requires CleanReachable(s) && i in s.insts && r in Unwritten(s.insts[i].worker)
    ensures r in s.rows && s.rows[r].status.Inprog? && s.rows[r].owner == i
    ensures forall j :: j in s.insts && j != i ==> r !in Unwritten(s.insts[j].worker)
    ensures forall d :: RecEnabled(s, Atomic(d)) ==> r !in Resettable(s, s.insts[d].tracked)
  {
    ReachableInv(s);
    InvExclusive(s);
    forall d | RecEnabled(s, Atomic(d))
      ensures r !in Resettable(s, s.insts[d].tracked)
    {
      AtomicHitsOwn(s, d);
    }
  }

  lemma RecordsKept(s: State, i: Instance, op: RowOp)
    requires Inv(s) && RowEnabled(s, i, op) && !op.Refuse?
    ensures var t := ApplyRow(s, i, op);
      && t.batches.Keys == s.batches.Keys
      && forall b :: b in s.batches ==>
           && t.batches[b].commits == s.batches[b].commits && t.batches[b].raced == s.batches[b].raced
           && t.batches[b].counts == s.batches[b].counts
           && (Ordinary(s, b) ==> t.batches[b] == s.batches[b])
  {
    RowFrame(s, i, op);
    assert Owned(s, i, s.insts[i].worker) && WorkerOk(s, s.insts[i].worker);
  }

  /** The step does not finish the batch. */
  ghost predicate NotFinished(s: State, t: State, b: BatchId) {
    b in s.batches && b in t.batches && (t.batches[b].done ==> s.batches[b].done)
  }

  lemma CallerFinishesNone(s: State, c: CallerOp, b: BatchId)
    requires CallerEnabled(s, c) && !c.Abort? && b in s.batches
    ensures NotFinished(s, ApplyCaller(s, c), b)
  {}

  lemma BlockFinishesNone(s: State, i: Instance, op: BlockOp, b: BatchId)
    requires BlockEnabled(s, i, op) && b in s.batches
    ensures NotFinished(s, ApplyBlock(s, i, op), b)
  {}

  lemma SumFinishesNone(s: State, c: BatchId, op: SumOp, r: RowId)
    requires Inv(s) && SumEnabled(s, c, op) && r in s.rows && s.rows[r].status.Inprog? && s.rows[r].batch in s.batches
    ensures NotFinished(s, ApplySum(s, c, op), s.rows[r].batch)
  {
    SumFrame(s, c, op);
    if c == s.rows[r].batch && c in s.sums {
      assert Summ.SumOk(s, c, s.sums[c]) && Summ.SumRowOk(s.sums[c], r, s.rows[r]);
    }
  }

  lemma RecFinishesNone(s: State, op: RecOp, b: BatchId)
    requires RecEnabled(s, op) && b in s.batches
    ensures NotFinished(s, ApplyRec(s, op), b)
  {}

  /** An ordinary batch with an inprog row is not marked done by a clean step. */
  lemma InprogKeepsOpen(s: State, step: Step, r: RowId)
    requires Inv(s) && Enabled(s, step) && Clean(step) && r in s.rows && s.rows[r].status.Inprog?
    requires s.rows[r].batch in s.batches && Ordinary(s, s.rows[r].batch)
    ensures NotFinished(s, Apply(s, step), s.rows[r].batch)
  {
    match step
    case Caller(c) => CallerFinishesNone(s, c, s.rows[r].batch);
    case Life(i, life) =>
    case Block(i, op) => BlockFinishesNone(s, i, op, s.rows[r].batch);
    case InLoop(i, op) => RecordsKept(s, i, op);
    case Sweep =>
    case Summary(c, op) => SumFinishesNone(s, c, op, r);
    case Recovery(op) => RecFinishesNone(s, op, s.rows[r].batch);
  }

  lemma OrdinaryCaller(s: State, c: CallerOp, b: BatchId)
    requires CallerEnabled(s, c) && b in s.batches && Ordinary(s, b)
    ensures Ordinary(ApplyCaller(s, c), b)
  {}

  lemma OrdinaryBlock(s: State, i: Instance, op: BlockOp, b: BatchId)
    requires BlockEnabled(s, i, op) && Ordinary(s, b)
    ensures Ordinary(ApplyBlock(s, i, op), b)
  {}

  lemma OrdinaryRec(s: State, op: RecOp, b: BatchId)
    requires RecEnabled(s, op) && Ordinary(s, b)
    ensures Ordinary(ApplyRec(s, op), b)
  {}

  /** A clean step adds no slow query row to an existing batch. */
  lemma OrdinaryKept(s: State, step: Step, b: BatchId)
    requires Inv(s) && Enabled(s, step) && Clean(step) && b in s.batches && Ordinary(s, b)
    ensures Ordinary(Apply(s, step), b)
  {
    match step
    case Caller(c) => OrdinaryCaller(s, c, b);
    case Life(i, life) =>
    case Block(i, op) => OrdinaryBlock(s, i, op, b);
    case InLoop(i, op) => WritesOnlyOwn(s, i, op);
    case Sweep =>
    case Summary(c, op) => SumFrame(s, c, op);
    case Recovery(op) => OrdinaryRec(s, op, b);
  }

  lemma {:induction false} StrandedRun(s: State, steps: seq<Step>, t: State, r: RowId)
    requires Inv(s) && r in s.stranded && Run(s, steps, t) && AllClean(steps)
    requires r in s.rows && Ordinary(s, s.rows[r].batch) && s.rows[r].batch in s.batches
    requires !s.batches[s.rows[r].batch].done
    ensures Inv(t) && r in t.stranded && r in t.rows && t.rows[r].status.Inprog? && t.rows[r].batch == s.rows[r].batch
    ensures t.rows[r].batch in t.batches && !t.batches[t.rows[r].batch].done
    decreases |steps|
  {
    if steps != [] {
      var step := steps[0];
      assert Clean(step);
      StepInv(s, step);
      StepStructure(s, step);
      NoLoss.StrandedFrame(s, step);
      InprogKeepsOpen(s, step, r);
      OrdinaryKept(s, step, s.rows[r].batch);
      assert AllClean(steps[1..]);
      StrandedRun(Apply(s, step), steps[1..], t, r);
    }
  }

  /** A stranded row is lost for good: it stays inprog, and its batch is never done. */
  lemma StrandedForever(s: State, steps: seq<Step>, t: State, r: RowId)
    requires CleanReachable(s) && r in s.stranded && r in s.rows && Run(s, steps, t) && AllClean(steps)
    requires var b := s.rows[r].batch; b in s.batches && !s.batches[b].done && Ordinary(s, b)
    ensures r in t.rows && t.rows[r].status.Inprog?
    ensures var b := s.rows[r].batch; t.rows[r].batch == b && b in t.batches && !t.batches[b].done
  {
    ReachableInv(s);
    StrandedRun(s, steps, t, r);
  }
}
