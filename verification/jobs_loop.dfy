/** The loop over a claimed block, including handleProcessingError, in every interleaving. */
module BatchLoop {
  import opened BatchProtocol
  import opened BatchStructure

  ghost predicate AllTerminal(rows: map<RowId, Row>, b: BatchId) {
    forall r :: r in rows && rows[r].batch == b ==> Terminal(rows[r].status)
  }

  /** Points reached only after a statement that left the row terminal. */
  predicate Written(pc: Pc) {
    pc.SlowWritten? || pc == Untracking(NoErr) || pc.BatchFailing? || pc.SlowFailing?
  }

  ghost predicate AtOk(rows: map<RowId, Row>, r: RowId, pc: Pc) {
    r in rows &&
    (Written(pc) ==> Terminal(rows[r].status)) &&
    (pc == RowFailing(true) || pc.BatchFailing? ==> AllTerminal(rows, rows[r].batch))
  }

  /**
   Rows whose iteration has ended are terminal, and a key in processedErrorCombinations means
   that every row of that batch is terminal.
   */
  ghost predicate LoopDoneOk(rows: map<RowId, Row>, w: Worker) {
    w.Looping? ==>
      && (forall r :: r in w.block && r !in w.left ==> r in rows && Terminal(rows[r].status))
      && (forall k :: k in w.keys ==> AllTerminal(rows, k.0))
  }

  ghost predicate LoopAtOk(rows: map<RowId, Row>, w: Worker) {
    w.Looping? && w.at.AtRow? ==> AtOk(rows, w.at.r, w.at.pc)
  }

  ghost predicate LoopOk(rows: map<RowId, Row>, w: Worker) {
    LoopDoneOk(rows, w) && LoopAtOk(rows, w)
  }

  ghost predicate LoopsOk(s: State) {
    forall i :: i in s.insts ==> LoopOk(s.rows, s.insts[i].worker)
  }

  ghost predicate Inv(s: State) {
    Structure(s) && LoopsOk(s)
  }

  lemma GrowsKeepsAllTerminal(s: State, t: State, b: BatchId)
    requires Structure(s) && Grows(s, t) && Begun(s, b) && AllTerminal(s.rows, b)
    ensures AllTerminal(t.rows, b)
  {}

  lemma GrowsKeepsLoop(s: State, t: State, w: Worker)
    requires Structure(s) && Grows(s, t) && WorkerOk(s, w) && LoopOk(s.rows, w)
    ensures LoopOk(t.rows, w)
  {
    if w.Looping? {
      forall k | k in w.keys
        ensures AllTerminal(t.rows, k.0)
      {
        GrowsKeepsAllTerminal(s, t, k.0);
      }
      if w.at.AtRow? && (w.at.pc == RowFailing(true) || w.at.pc.BatchFailing?) {
        GrowsKeepsAllTerminal(s, t, s.rows[w.at.r].batch);
      }
    }
  }

  lemma LoopsFrom(s: State, t: State, changed: set<Instance>)
    requires Inv(s) && Grows(s, t)
    requires forall j :: j in t.insts && j !in changed ==> j in s.insts && t.insts[j].worker == s.insts[j].worker
    requires forall j :: j in t.insts && j in changed ==> LoopOk(t.rows, t.insts[j].worker)
    ensures LoopsOk(t)
  {
    forall j | j in t.insts && j !in changed
      ensures LoopOk(t.rows, t.insts[j].worker)
    {
      GrowsKeepsLoop(s, t, s.insts[j].worker);
    }
  }

  /** The bulk update leaves no row of the batch pending. */
  lemma BulkEndsAll(s: State, i: Instance)
    requires Inv(s) && RowEnabled(s, i, BulkFail)
    ensures AllTerminal(DoBulkFail(s, i).rows, CurBatch(s, i))
  {
    var t, b := DoBulkFail(s, i), CurBatch(s, i);
    forall r | r in t.rows && t.rows[r].batch == b
      ensures Terminal(t.rows[r].status)
    {
      assert RowOk(s, r);
      assert Pending(s.rows[r].status) ==> r in PendingIn(s.rows, b);
    }
  }

  lemma FailedAt(s: State, i: Instance)
    requires Inv(s) && RowEnabled(s, i, FailRow) && Grows(s, DoFailRow(s, i))
    ensures var t := DoFailRow(s, i); LoopAtOk(t.rows, t.insts[i].worker)
  {
    assert LoopAtOk(s.rows, s.insts[i].worker);
    if CurPc(s, i).config { GrowsKeepsAllTerminal(s, DoFailRow(s, i), CurBatch(s, i)); }
  }

  /** Operations that do not touch the rows. */
  lemma QuietAt(s: State, i: Instance, op: RowOp)
    requires Inv(s) && RowEnabled(s, i, op) && !op.Return? && !op.BulkFail? && !op.FailRow?
    ensures var t := ApplyRow(s, i, op); LoopAtOk(t.rows, t.insts[i].worker)
  {
    assert op.Refuse? || op.Call? || LoopAtOk(s.rows, s.insts[i].worker);
  }

  lemma ActingAt(s: State, i: Instance, op: RowOp)
    requires Inv(s) && RowEnabled(s, i, op) && Grows(s, ApplyRow(s, i, op))
    ensures var t := ApplyRow(s, i, op); LoopAtOk(t.rows, t.insts[i].worker)
  {
    match op
    case BulkFail => BulkEndsAll(s, i);
    case FailRow => FailedAt(s, i);
    case Return(_) =>
    case _ => QuietAt(s, i, op);
  }

  lemma ActingDone(s: State, i: Instance, op: RowOp)
    requires Inv(s) && RowEnabled(s, i, op) && Grows(s, ApplyRow(s, i, op))
    ensures var t := ApplyRow(s, i, op); LoopDoneOk(t.rows, t.insts[i].worker)
  {
    if op.BulkFail? { BulkEndsAll(s, i); }
    GrowsKeepsLoop(s, ApplyRow(s, i, op), s.insts[i].worker);
  }

  lemma LoopsRow(s: State, i: Instance, op: RowOp)
    requires Inv(s) && RowEnabled(s, i, op) && Grows(s, ApplyRow(s, i, op))
    ensures LoopsOk(ApplyRow(s, i, op))
  {
    RowFrame(s, i, op);
    ActingAt(s, i, op);
    ActingDone(s, i, op);
    LoopsFrom(s, ApplyRow(s, i, op), {i});
  }

  lemma LoopsBlock(s: State, i: Instance, op: BlockOp)
    requires Inv(s) && BlockEnabled(s, i, op) && Grows(s, ApplyBlock(s, i, op))
    ensures LoopsOk(ApplyBlock(s, i, op))
  {
    BlockFrame(s, i, op);
    LoopsFrom(s, ApplyBlock(s, i, op), {i});
  }

  lemma LoopsLife(s: State, i: Instance, life: LifeOp)
    requires Inv(s) && LifeEnabled(s, i, life) && Grows(s, ApplyLife(s, i, life))
    ensures LoopsOk(ApplyLife(s, i, life))
  {
    LoopsFrom(s, ApplyLife(s, i, life), {i});
  }

  lemma LoopsRec(s: State, op: RecOp)
    requires Inv(s) && RecEnabled(s, op) && Grows(s, ApplyRec(s, op))
    ensures LoopsOk(ApplyRec(s, op))
  {
    LoopsFrom(s, ApplyRec(s, op), {});
  }

  lemma StepLoops(s: State, step: Step)
    requires Inv(s) && Enabled(s, step)
    ensures Inv(Apply(s, step))
  {
    StepStructure(s, step);
    match step
    case Caller(c) => CallerFrame(s, c); LoopsFrom(s, Apply(s, step), {});
    case Life(i, life) => LoopsLife(s, i, life);
    case Block(i, op) => LoopsBlock(s, i, op);
    case InLoop(i, op) => LoopsRow(s, i, op);
    case Sweep =>
    case Summary(b, op) => SumFrame(s, b, op);
    case Recovery(op) => LoopsRec(s, op);
  }

  lemma {:induction false} RunLoops(s: State, steps: seq<Step>, t: State)
    requires Inv(s) && Run(s, steps, t)
    ensures Inv(t)
    decreases |steps|
  {
    if steps != [] {
      StepLoops(s, steps[0]);
      RunLoops(Apply(s, steps[0]), steps[1..], t);
    }
  }

  lemma ReachableInv(s: State)
    requires Reachable(s)
    ensures Inv(s)
  {
    var steps :| Run(Initial(s.chunk), steps, s);
    RunLoops(Initial(s.chunk), steps, s);
  }

  /**
   Block completion: when the loop over a block ends, every row of the block is terminal, for
   any mix of results, panics and configuration errors, and stays terminal from then on.
   */
  lemma BlockCompletion(s: State, i: Instance, steps: seq<Step>, t: State)
    requires Reachable(s) && Enabled(s, Block(i, EndBlock)) && Run(Apply(s, Block(i, EndBlock)), steps, t)
    ensures forall r :: r in s.insts[i].worker.block ==> r in t.rows && Terminal(t.rows[r].status)
  {
    ReachableInv(s);
    StepStructure(s, Block(i, EndBlock));
    RunStructure(Apply(s, Block(i, EndBlock)), steps, t);
  }

  /**
   The early return of handleProcessingError on a key it has seen skips no work: the row, and
   with it every row of its batch, is terminal already.
   */
  lemma EarlyReturnSkipsNothing(s: State, i: Instance, scope: Scope)
    requires Reachable(s) && InRow(s, i) && CurPc(s, i) == Untracking(ConfigErr(scope))
    requires (CurBatch(s, i), scope) in s.insts[i].worker.keys
    ensures AllTerminal(s.rows, CurBatch(s, i)) && Terminal(s.rows[CurRow(s, i)].status)
  {
    ReachableInv(s);
    assert LoopOk(s.rows, s.insts[i].worker);
  }
}
