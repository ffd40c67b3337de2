/** What every step of every run keeps about the tables, and how the tables may change. */
module BatchStructure {
  import opened BatchProtocol

  /** The batch has left queued and wait for good. */
  predicate Begun(s: State, b: BatchId) {
    b in s.batches && !s.batches[b].status.Queued? && !s.batches[b].status.Wait?
  }

  predicate RowOk(s: State, r: RowId)
    requires r in s.rows
  {
    var x := s.rows[r];
    && x.batch in s.batches && !x.status.Wait? && x.line >= 0
    && (!Begun(s, x.batch) ==> x.status.Queued?)
    && (x.line == 0 ==> !s.batches[x.batch].status.Wait?)
  }

  ghost predicate RowsOk(s: State) {
    forall r :: r in s.rows ==> RowOk(s, r)
  }

  ghost predicate SlowAlone(s: State) {
    forall r, q :: r in s.rows && q in s.rows && s.rows[r].batch == s.rows[q].batch && s.rows[r].line == 0 ==> q == r
  }

  ghost predicate BatchesOk(s: State) {
    forall b :: b in s.batches ==> (s.batches[b].done <==> Terminal(s.batches[b].status))
  }

  ghost predicate TablesOk(s: State) {
    RowsOk(s) && SlowAlone(s) && BatchesOk(s)
  }

  ghost predicate BlockOk(s: State, block: set<RowId>) {
    forall r :: r in block ==> r in s.rows && Begun(s, s.rows[r].batch)
  }

  predicate PcOk(s: State, r: RowId, pc: Pc) {
    r in s.rows &&
    (pc.SlowWritten? ==> Terminal(pc.st) && s.rows[r].line == 0) &&
    (pc.SlowFailing? ==> s.rows[r].line == 0)
  }

  ghost predicate WorkerOk(s: State, w: Worker) {
    match w
    case Tracking(block, untracked) => BlockOk(s, block) && untracked <= block
    case Looping(block, left, at, keys) =>
      && BlockOk(s, block) && left <= block
      && (at.AtRow? ==> at.r in left && PcOk(s, at.r, at.pc))
      && (forall k :: k in keys ==> Begun(s, k.0))
    case _ => true
  }

  ghost predicate WorkersOk(s: State) {
    forall i :: i in s.insts ==> WorkerOk(s, s.insts[i].worker)
  }

  ghost predicate SumsOk(s: State) {
    && (forall b :: b in s.sums ==> b in s.batches && s.batches[b].status.Inprog?)
    && (forall b :: b in s.candidates ==> Begun(s, b))
  }

  ghost predicate Structure(s: State) {
    TablesOk(s) && WorkersOk(s) && SumsOk(s)
  }

  /**
   How one step, and so a whole run, may change the tables: nothing is deleted, a terminal row
   stays terminal, and only a batch in wait gains rows.
   */
  ghost predicate Grows(s: State, t: State) {
    && (forall b :: b in s.batches ==>
          && b in t.batches
          && (Begun(s, b) ==> Begun(t, b))
          && (!s.batches[b].status.Wait? ==> !t.batches[b].status.Wait?)
          && (s.batches[b].done ==> t.batches[b].done))
    && (forall r :: r in s.rows ==>
          && r in t.rows && t.rows[r].batch == s.rows[r].batch && t.rows[r].line == s.rows[r].line
          && (Terminal(s.rows[r].status) ==> Terminal(t.rows[r].status)))
    && (forall r :: r in t.rows && r !in s.rows ==>
          t.rows[r].batch in s.batches ==> s.batches[t.rows[r].batch].status.Wait?)
  }

  // ---------------------------------------------------------------- what a step leaves alone

  lemma RowFrame(s: State, i: Instance, op: RowOp)
    requires RowEnabled(s, i, op)
    ensures var t := ApplyRow(s, i, op);
      && i in s.insts && i in t.insts && t.rows.Keys == s.rows.Keys
      && s.insts[i].worker.Looping? && t.insts[i].worker.Looping? && t.insts[i].worker.block == s.insts[i].worker.block
      && t.insts[i] == s.insts[i].(worker := t.insts[i].worker, tracked := t.insts[i].tracked)
      && t == s.(rows := t.rows, batches := t.batches, insts := s.insts[i := t.insts[i]], nexecs := t.nexecs)
  {}

  lemma BlockFrame(s: State, i: Instance, op: BlockOp)
    requires BlockEnabled(s, i, op)
    ensures var t := ApplyBlock(s, i, op);
      && i in s.insts && i in t.insts && t.rows.Keys == s.rows.Keys
      && Alive(s.insts[i].worker) && Alive(t.insts[i].worker)
      && t.insts[i] == s.insts[i].(worker := t.insts[i].worker, tracked := t.insts[i].tracked)
      && t == s.(rows := t.rows, batches := t.batches, insts := s.insts[i := t.insts[i]],
                 candidates := t.candidates, nclaims := t.nclaims)
      && (t.insts[i].worker.Looping? ==>
            && t.insts[i].worker.left == t.insts[i].worker.block
            && t.insts[i].worker.at.Between? && t.insts[i].worker.keys == {})
  {}

  lemma SumFrame(s: State, b: BatchId, op: SumOp)
    requires SumEnabled(s, b, op)
    ensures var t := ApplySum(s, b, op);
      && b in s.batches && b in t.batches
      && t.sums - {b} == s.sums - {b}
      && t == s.(batches := s.batches[b := t.batches[b]], sums := t.sums)
  {}

  lemma CallerFrame(s: State, c: CallerOp)
    requires CallerEnabled(s, c)
    ensures var t := ApplyCaller(s, c); t == s.(rows := t.rows, batches := t.batches)
  {}

  lemma ChunkKept(s: State, step: Step)
    requires Enabled(s, step)
    ensures Apply(s, step).chunk == s.chunk
  {
    match step
    case Caller(c) => CallerFrame(s, c);
    case Block(i, op) => BlockFrame(s, i, op);
    case InLoop(i, op) => RowFrame(s, i, op);
    case Summary(b, op) => SumFrame(s, b, op);
    case _ =>
  }

  lemma {:induction false} SameChunk(s: State, steps: seq<Step>, t: State)
    requires Run(s, steps, t)
    ensures t.chunk == s.chunk
    decreases |steps|
  {
    if steps != [] {
      ChunkKept(s, steps[0]);
      SameChunk(Apply(s, steps[0]), steps[1..], t);
    }
  }

  // ---------------------------------------------------------------- preservation

  lemma GrowsKeepsWorker(s: State, t: State, w: Worker)
    requires Grows(s, t) && WorkerOk(s, w)
    ensures WorkerOk(t, w)
  {}

  lemma GrowsCaller(s: State, c: CallerOp)
    requires Structure(s) && CallerEnabled(s, c)
    ensures Grows(s, ApplyCaller(s, c))
  {}

  lemma TablesSubmit(s: State, b: BatchId, lines: map<RowId, int>, st: Status)
    requires Structure(s) && b !in s.batches && lines.Keys !! s.rows.Keys && (st.Queued? || st.Wait?)
    requires forall r :: r in lines ==> lines[r] > 0 || (lines.Keys == {r} && lines[r] == 0 && st.Queued?)
    ensures TablesOk(DoSubmit(s, b, lines, st)) && SumsOk(DoSubmit(s, b, lines, st))
  {
    var t := DoSubmit(s, b, lines, st);
    forall r | r in t.rows ensures RowOk(t, r) { assert r in s.rows ==> RowOk(s, r); }
  }

  lemma TablesAppend(s: State, b: BatchId, lines: map<RowId, int>, waitabit: bool)
    requires Structure(s) && CallerEnabled(s, Append(b, lines, waitabit))
    ensures TablesOk(DoAppend(s, b, lines, waitabit)) && SumsOk(DoAppend(s, b, lines, waitabit))
  {
    var t := DoAppend(s, b, lines, waitabit);
    forall r | r in t.rows ensures RowOk(t, r) { assert r in s.rows ==> RowOk(s, r); }
  }

  lemma TablesAbort(s: State, b: BatchId)
    requires Structure(s) && CallerEnabled(s, Abort(b))
    ensures TablesOk(DoAbort(s, b)) && SumsOk(DoAbort(s, b))
  {
    var t := DoAbort(s, b);
    forall r | r in t.rows ensures RowOk(t, r) { assert RowOk(s, r); }
  }

  lemma TablesWaitOff(s: State, b: BatchId)
    requires Structure(s) && CallerEnabled(s, WaitOff(b))
    ensures TablesOk(ApplyCaller(s, WaitOff(b))) && SumsOk(ApplyCaller(s, WaitOff(b)))
  {
    var t := ApplyCaller(s, WaitOff(b));
    forall r | r in t.rows ensures RowOk(t, r) { assert RowOk(s, r); }
  }

  lemma TablesCaller(s: State, c: CallerOp)
    requires Structure(s) && CallerEnabled(s, c)
    ensures TablesOk(ApplyCaller(s, c)) && SumsOk(ApplyCaller(s, c))
  {
    match c
    case Submit(b, lines, waitabit) => TablesSubmit(s, b, lines, if waitabit then Wait else Queued);
    case SubmitSlow(b, r) => TablesSubmit(s, b, map[r := 0], Queued);
    case Append(b, lines, waitabit) => TablesAppend(s, b, lines, waitabit);
    case WaitOff(b) => TablesWaitOff(s, b);
    case Abort(b) => TablesAbort(s, b);
  }

  lemma WorkersCaller(s: State, c: CallerOp)
    requires Structure(s) && CallerEnabled(s, c) && Grows(s, ApplyCaller(s, c))
    ensures WorkersOk(ApplyCaller(s, c))
  {
    var t := ApplyCaller(s, c);
    forall j | j in s.insts
      ensures WorkerOk(t, s.insts[j].worker)
    {
      GrowsKeepsWorker(s, t, s.insts[j].worker);
    }
  }

  lemma GrowsLife(s: State, i: Instance, life: LifeOp)
    requires Structure(s) && LifeEnabled(s, i, life)
    ensures Grows(s, ApplyLife(s, i, life))
  {}

  lemma TablesLife(s: State, i: Instance, life: LifeOp)
    requires Structure(s) && LifeEnabled(s, i, life) && Grows(s, ApplyLife(s, i, life))
    ensures TablesOk(ApplyLife(s, i, life)) && SumsOk(ApplyLife(s, i, life))
  {}

  lemma WorkersLife(s: State, i: Instance, life: LifeOp)
    requires Structure(s) && LifeEnabled(s, i, life) && Grows(s, ApplyLife(s, i, life))
    ensures WorkersOk(ApplyLife(s, i, life))
  {
    var t := ApplyLife(s, i, life);
    forall j | j in s.insts
      ensures WorkerOk(t, s.insts[j].worker)
    {
      GrowsKeepsWorker(s, t, s.insts[j].worker);
    }
  }

  lemma GrowsBlock(s: State, i: Instance, op: BlockOp)
    requires Structure(s) && BlockEnabled(s, i, op)
    ensures Grows(s, ApplyBlock(s, i, op))
  {}

  lemma TablesBlock(s: State, i: Instance, op: BlockOp)
    requires Structure(s) && BlockEnabled(s, i, op) && Grows(s, ApplyBlock(s, i, op))
    ensures TablesOk(ApplyBlock(s, i, op)) && SumsOk(ApplyBlock(s, i, op))
  {}

  lemma WorkersBlock(s: State, i: Instance, op: BlockOp)
    requires Structure(s) && BlockEnabled(s, i, op) && Grows(s, ApplyBlock(s, i, op))
    ensures WorkersOk(ApplyBlock(s, i, op))
  {
    var t := ApplyBlock(s, i, op);
    forall j | j in s.insts
      ensures WorkerOk(t, s.insts[j].worker)
    {
      GrowsKeepsWorker(s, t, s.insts[j].worker);
    }
  }

  /** What the loop writes: rows of begun batches end, and so do records that are not locked. */
  ghost predicate RowWrites(s: State, t: State) {
    && t.rows.Keys == s.rows.Keys && t.batches.Keys == s.batches.Keys
    && (forall r :: r in s.rows ==>
          && t.rows[r].batch == s.rows[r].batch && t.rows[r].line == s.rows[r].line
          && (t.rows[r].status == s.rows[r].status || (Terminal(t.rows[r].status) && Begun(s, s.rows[r].batch))))
    && (forall b :: b in s.batches ==>
          t.batches[b] == s.batches[b] || (b !in s.sums && Terminal(t.batches[b].status) && t.batches[b].done))
  }

  lemma RowWritesOnly(s: State, i: Instance, op: RowOp)
    requires Structure(s) && RowEnabled(s, i, op)
    ensures RowWrites(s, ApplyRow(s, i, op))
  {
    assert WorkerOk(s, s.insts[i].worker);
  }

  lemma GrowsRow(s: State, i: Instance, op: RowOp)
    requires Structure(s) && RowEnabled(s, i, op)
    ensures Grows(s, ApplyRow(s, i, op))
  {
    RowWritesOnly(s, i, op);
    WritesGrow(s, ApplyRow(s, i, op));
  }

  lemma WritesGrow(s: State, t: State)
    requires RowWrites(s, t)
    ensures Grows(s, t)
  {}

  lemma WritesKeepTables(s: State, t: State)
    requires Structure(s) && RowWrites(s, t) && t.sums == s.sums && t.candidates == s.candidates
    ensures TablesOk(t) && SumsOk(t)
  {
    forall r | r in t.rows ensures RowOk(t, r) { assert RowOk(s, r); }
  }

  lemma TablesRow(s: State, i: Instance, op: RowOp)
    requires Structure(s) && RowEnabled(s, i, op)
    ensures TablesOk(ApplyRow(s, i, op)) && SumsOk(ApplyRow(s, i, op))
  {
    RowFrame(s, i, op);
    RowWritesOnly(s, i, op);
    WritesKeepTables(s, ApplyRow(s, i, op));
  }

  /** Keys are those recorded before and, after a bulk failure, that of the current batch. */
  lemma ActingWorker(s: State, i: Instance, op: RowOp)
    requires Structure(s) && RowEnabled(s, i, op)
    ensures i in ApplyRow(s, i, op).insts && WorkerOk(s, ApplyRow(s, i, op).insts[i].worker)
  {
    assert WorkerOk(s, s.insts[i].worker);
  }

  lemma WorkersRow(s: State, i: Instance, op: RowOp)
    requires Structure(s) && RowEnabled(s, i, op) && Grows(s, ApplyRow(s, i, op))
    ensures WorkersOk(ApplyRow(s, i, op))
  {
    RowFrame(s, i, op);
    ActingWorker(s, i, op);
    var t := ApplyRow(s, i, op);
    forall j | j in t.insts
      ensures WorkerOk(t, t.insts[j].worker)
    {
      GrowsKeepsWorker(s, t, t.insts[j].worker);
    }
  }

  /** The record of the batch stays as it is until the commit finishes it. */
  lemma SumRecord(s: State, b: BatchId, op: SumOp)
    requires SumEnabled(s, b, op)
    ensures var t := ApplySum(s, b, op);
      && b in t.batches
      && (op.Commit? || (t.batches[b].status == s.batches[b].status && t.batches[b].done == s.batches[b].done))
      && (op.Commit? ==> Terminal(t.batches[b].status) && t.batches[b].done)
      && (b in t.sums ==> !op.Commit? && (b in s.sums || !s.batches[b].done))
  {}

  lemma GrowsSum(s: State, b: BatchId, op: SumOp)
    requires Structure(s) && SumEnabled(s, b, op)
    ensures Grows(s, ApplySum(s, b, op))
  {
    SumFrame(s, b, op);
    SumRecord(s, b, op);
  }

  lemma TablesSum(s: State, b: BatchId, op: SumOp)
    requires Structure(s) && SumEnabled(s, b, op)
    ensures TablesOk(ApplySum(s, b, op)) && SumsOk(ApplySum(s, b, op))
  {
    SumFrame(s, b, op);
    SumRecord(s, b, op);
    var t := ApplySum(s, b, op);
    forall r | r in t.rows ensures RowOk(t, r) { assert RowOk(s, r); }
    forall c | c in t.sums
      ensures c in t.batches && t.batches[c].status.Inprog?
    {
      if c != b { assert c in t.sums - {b} && c in s.sums - {b}; }
    }
  }

  lemma WorkersSum(s: State, b: BatchId, op: SumOp)
    requires Structure(s) && SumEnabled(s, b, op) && Grows(s, ApplySum(s, b, op))
    ensures WorkersOk(ApplySum(s, b, op))
  {
    var t := ApplySum(s, b, op);
    forall j | j in s.insts
      ensures WorkerOk(t, s.insts[j].worker)
    {
      GrowsKeepsWorker(s, t, s.insts[j].worker);
    }
  }

  lemma GrowsRec(s: State, op: RecOp)
    requires Structure(s) && RecEnabled(s, op)
    ensures Grows(s, ApplyRec(s, op))
  {}

  lemma TablesRec(s: State, op: RecOp)
    requires Structure(s) && RecEnabled(s, op) && Grows(s, ApplyRec(s, op))
    ensures TablesOk(ApplyRec(s, op)) && SumsOk(ApplyRec(s, op))
  {}

  lemma WorkersRec(s: State, op: RecOp)
    requires Structure(s) && RecEnabled(s, op) && Grows(s, ApplyRec(s, op))
    ensures WorkersOk(ApplyRec(s, op))
  {
    var t := ApplyRec(s, op);
    forall j | j in s.insts
      ensures WorkerOk(t, s.insts[j].worker)
    {
      GrowsKeepsWorker(s, t, s.insts[j].worker);
    }
  }

  /** Every step of every interleaving keeps the structure and changes the tables only as Grows says. */
  lemma StepStructure(s: State, step: Step)
    requires Structure(s) && Enabled(s, step)
    ensures Structure(Apply(s, step)) && Grows(s, Apply(s, step))
  {
    match step
    case Caller(c) => GrowsCaller(s, c); TablesCaller(s, c); WorkersCaller(s, c);
    case Life(i, life) => GrowsLife(s, i, life); TablesLife(s, i, life); WorkersLife(s, i, life);
    case Block(i, op) => GrowsBlock(s, i, op); TablesBlock(s, i, op); WorkersBlock(s, i, op);
    case InLoop(i, op) => GrowsRow(s, i, op); TablesRow(s, i, op); WorkersRow(s, i, op);
    case Summary(b, op) => GrowsSum(s, b, op); TablesSum(s, b, op); WorkersSum(s, b, op);
    case Recovery(op) => GrowsRec(s, op); TablesRec(s, op); WorkersRec(s, op);
    case Sweep =>
  }

  lemma GrowsTransitive(s: State, t: State, u: State)
    requires Structure(s) && Structure(t) && Grows(s, t) && Grows(t, u)
    ensures Grows(s, u)
  {}

  /** Whole runs keep the structure, and whole runs are as tame as one step. */
  lemma {:induction false} RunStructure(s: State, steps: seq<Step>, t: State)
    requires Structure(s) && Run(s, steps, t)
    ensures Structure(t) && Grows(s, t)
    decreases |steps|
  {
    if steps != [] {
      StepStructure(s, steps[0]);
      RunStructure(Apply(s, steps[0]), steps[1..], t);
      GrowsTransitive(s, Apply(s, steps[0]), t);
    }
  }

  lemma ReachableStructure(s: State)
    requires Reachable(s)
    ensures Structure(s)
  {
    var steps :| Run(Initial(s.chunk), steps, s);
    RunStructure(Initial(s.chunk), steps, s);
  }

  /**
   A terminal row never becomes pending again, in any interleaving, stale or repeated
   recovery included; so the pending rows of a batch that is not in wait only shrink.
   */
  lemma TerminalForever(s: State, steps: seq<Step>, t: State)
    requires Reachable(s) && Run(s, steps, t)
    ensures forall r :: r in s.rows && Terminal(s.rows[r].status) ==> r in t.rows && Terminal(t.rows[r].status)
    ensures forall b :: b in s.batches && !s.batches[b].status.Wait? ==>
              b in t.batches && PendingIn(t.rows, b) <= PendingIn(s.rows, b) && AllIn(t.rows, b) == AllIn(s.rows, b)
  {
    ReachableStructure(s);
    RunStructure(s, steps, t);
    forall b | b in s.batches && !s.batches[b].status.Wait?
      ensures PendingIn(t.rows, b) <= PendingIn(s.rows, b) && AllIn(t.rows, b) == AllIn(s.rows, b)
    {
      forall r | r in t.rows && t.rows[r].batch == b
        ensures r in AllIn(s.rows, b) && (Pending(t.rows[r].status) ==> r in PendingIn(s.rows, b))
      {
        assert r in s.rows && RowOk(s, r);
      }
      forall r | r in s.rows && s.rows[r].batch == b
        ensures r in AllIn(t.rows, b)
      {
        assert r in t.rows;
      }
    }
  }

  /**
   No stuck batch: a batch with rows that is not in wait has a pending row, or is done, or is
   a batch the sweep query returns; and the sweep query returns no other batch.  The states
   include those left by a crash between any two statements.
   */
  lemma NoStuckBatch(s: State, b: BatchId)
    requires Reachable(s) && b in s.batches && AllIn(s.rows, b) != {} && !s.batches[b].status.Wait?
    ensures b in Unsummarized(s) <==> PendingIn(s.rows, b) == {} && !s.batches[b].done
    ensures PendingIn(s.rows, b) != {} || s.batches[b].done || b in Unsummarized(s)
  {
    ReachableStructure(s);
    assert (forall r :: r in s.rows ==> s.rows[r].batch != b) ==> AllIn(s.rows, b) == {};
    var r :| r in s.rows && s.rows[r].batch == b;
    assert RowOk(s, r);
    if PendingIn(s.rows, b) == {} && !s.batches[b].done {
      assert s.rows[r].status.Queued? ==> r in PendingIn(s.rows, b);
      assert Begun(s, b);
    }
  }
}
