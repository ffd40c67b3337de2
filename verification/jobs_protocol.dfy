/**
 The batch protocol of the `jobs` package as a transition system.

 Any number of worker instances share two tables (`batches`, `batchrows`) and, in Redis, a
 registry, one heartbeat and one set of tracked rows for each instance.  A SQL transaction,
 an autocommitted statement or a Redis call is one `Step`; the summarisation transaction is
 split where another session can run between two of its statements.

 Environment assumptions (README.md repeats them):
 - an instance registers and sets its heartbeat before it claims rows, and a heartbeat is
   missing only for an instance that is dead or has stopped;
 - `WaitOff` and `BatchAppend` are one atomic step each;
 - processors return success, failed or aborted, and statements do not fail;
 - rows of an ordinary batch have a positive line, a slow query is one row with line 0.
 */
module BatchProtocol {

  type RowId = int
  type BatchId = int
  type Instance = int
  type RecId = int

  datatype Option<+T> = None | Some(value: T)

  datatype Status = Queued | Inprog | Success | Failed | Aborted | Wait

  predicate Terminal(st: Status) { st.Success? || st.Failed? || st.Aborted? }

  predicate Pending(st: Status) { st.Queued? || st.Inprog? }

  /** The three counters of the batches table. */
  datatype Tally = Tally(nsuccess: nat, nfailed: nat, naborted: nat)

  /**
   One record of `batchrows`.  `owner`, `unrun`, `claims` and `resets` are history: the last
   instance that claimed the row, whether it still has to run it, and how often the row was
   claimed and reset.
   */
  datatype Row = Row(batch: BatchId, line: int, status: Status,
                     owner: Instance, unrun: bool, claims: nat, resets: nat)

  /**
   One record of `batches`; `done` says that doneat is set.  The last four fields are history:
   committed summarisations, MarkDone calls, MarkDone calls whose transaction was lost, and
   the rows that recovery reset between the two counts of the committed summarisation.
   */
  datatype Batch = Batch(status: Status, done: bool, counts: Option<Tally>,
                         commits: nat, marks: nat, lostMarks: nat, raced: set<RowId>)

  // ---------------------------------------------------------------- the worker loop

  datatype Scope = AppOp | App

  datatype Outcome = Result(st: Status) | Panic | Config(scope: Scope)

  datatype Err = NoErr | PanicErr | ConfigErr(scope: Scope)

  /** Where the loop stands inside one row. */
  datatype Pc =
    | Running                      // the processor has the row
    | SlowWritten(st: Status)      // slow query: row written, batch not yet
    | Untracking(err: Err)         // processRow has returned
    | BulkFailing(scope: Scope)    // configuration error: rows of the batch still to be failed
    | RowFailing(config: bool)     // the row itself still to be marked failed
    | BatchFailing                 // configuration error: batch still to be marked failed
    | SlowFailing                  // failed slow query: batch still to be marked failed

  datatype At = Between | AtRow(r: RowId, pc: Pc)

  /** `left` holds the rows of the block whose iteration has not ended. */
  datatype Worker =
    | Idle
    | Tracking(block: set<RowId>, untracked: set<RowId>)
    | Looping(block: set<RowId>, left: set<RowId>, at: At, keys: set<(BatchId, Scope)>)
    | Stopped
    | Dead

  predicate Alive(w: Worker) { w.Idle? || w.Tracking? || w.Looping? }

  function Unfinished(w: Worker): set<RowId> {
    if w.Tracking? then w.block else if w.Looping? then w.left else {}
  }

  /** One instance: its loop and its Redis keys. */
  datatype Inst = Inst(worker: Worker, registered: bool, beating: bool, tracked: set<RowId>)

  // ---------------------------------------------------------------- open transactions

  datatype SumPhase = Locked | NoQueued | NoInprog | Tallied | Marked

  /** An open summarisation; `dirty` (history) holds the rows reset since the queued count. */
  datatype Sum = Sum(phase: SumPhase, tally: Tally, dirty: set<RowId>)

  datatype RecPhase = HasRead | HasReset | HasDeleted

  /** A running recovery of `target`, with the row ids it read. */
  datatype Rec = Rec(target: Instance, phase: RecPhase, ids: set<RowId>)

  /**
   `sums` is keyed by batch: the summarisation holds the batch's advisory lock and row lock.
   `candidates` are the batches for which summarizeCompletedBatches was called.  The last six
   fields are history.
   */
  datatype State = State(
    chunk: nat,
    rows: map<RowId, Row>,
    batches: map<BatchId, Batch>,
    insts: map<Instance, Inst>,
    sums: map<BatchId, Sum>,
    recs: map<RecId, Rec>,
    candidates: set<BatchId>,
    stranded: set<RowId>,
    crashed: set<Instance>,
    recovered: set<Instance>,
    nclaims: nat,
    nresets: nat,
    nexecs: nat)

  function Initial(chunk: nat): State {
    State(chunk, map[], map[], map[], map[], map[], {}, {}, {}, {}, 0, 0, 0)
  }

  // ---------------------------------------------------------------- queries

  function RowsIn(rows: map<RowId, Row>, b: BatchId, st: Status): set<RowId> {
    set r | r in rows && rows[r].batch == b && rows[r].status == st
  }

  function PendingIn(rows: map<RowId, Row>, b: BatchId): set<RowId> {
    set r | r in rows && rows[r].batch == b && Pending(rows[r].status)
  }

  function AllIn(rows: map<RowId, Row>, b: BatchId): set<RowId> {
    set r | r in rows && rows[r].batch == b
  }

  /** calculateSummaryCounters, as a query on the table. */
  function TallyOf(rows: map<RowId, Row>, b: BatchId): Tally {
    Tally(|RowsIn(rows, b, Success)|, |RowsIn(rows, b, Failed)|, |RowsIn(rows, b, Aborted)|)
  }

  function DetermineBatchStatus(t: Tally): Status {
    if t.naborted > 0 then Aborted else if t.nfailed > 0 then Failed else Success
  }

  /** GetUnsummarizedBatches: what the sweep selects. */
  function Unsummarized(s: State): set<BatchId> {
    set b | b in s.batches && s.batches[b].status.Inprog? && !s.batches[b].done && PendingIn(s.rows, b) == {}
  }

  /** GetBatchRowsByBatchIDSorted is a SELECT ... FOR UPDATE: from then on the rows are locked. */
  predicate RowsLocked(s: State, b: BatchId) {
    b in s.sums && (s.sums[b].phase.Tallied? || s.sums[b].phase.Marked?)
  }

  // ---------------------------------------------------------------- updates

  /** UPDATE batchrows SET status = st WHERE rowid IN ids. */
  function Mark(rows: map<RowId, Row>, ids: set<RowId>, st: Status): map<RowId, Row> {
    map r | r in rows :: if r in ids then rows[r].(status := st) else rows[r]
  }

  function ClaimRows(rows: map<RowId, Row>, ids: set<RowId>, i: Instance): map<RowId, Row> {
    map r | r in rows ::
      if r in ids then rows[r].(status := Inprog, owner := i, unrun := true, claims := rows[r].claims + 1)
      else rows[r]
  }

  function ResetRows(rows: map<RowId, Row>, ids: set<RowId>): map<RowId, Row> {
    map r | r in rows ::
      if r in ids then rows[r].(status := Queued, unrun := false, resets := rows[r].resets + 1) else rows[r]
  }

  function InsertRows(rows: map<RowId, Row>, b: BatchId, lines: map<RowId, int>): map<RowId, Row> {
    map r | r in rows.Keys + lines.Keys :: if r in rows then rows[r] else Row(b, lines[r], Queued, 0, false, 0, 0)
  }

  /** UpdateBatchesStatusBulk: only batches that are still queued move to inprog. */
  function StartBatches(s: State, block: set<RowId>): map<BatchId, Batch>
    requires block <= s.rows.Keys
  {
    map b | b in s.batches ::
      if s.batches[b].status.Queued? && exists r :: r in block && s.rows[r].batch == b
      then s.batches[b].(status := Inprog) else s.batches[b]
  }

  function SetWorker(s: State, i: Instance, w: Worker): State
    requires i in s.insts
  {
    s.(insts := s.insts[i := s.insts[i].(worker := w)])
  }

  function SetBatch(s: State, b: BatchId, x: Batch): State {
    s.(batches := s.batches[b := x])
  }

  function CloseSum(s: State, b: BatchId): State {
    s.(sums := s.sums - {b})
  }

  // ---------------------------------------------------------------- steps

  datatype CallerOp =
    | Submit(b: BatchId, lines: map<RowId, int>, waitabit: bool)
    | SubmitSlow(b: BatchId, r: RowId)
    | Append(b: BatchId, lines: map<RowId, int>, waitabit: bool)
    | WaitOff(b: BatchId)
    | Abort(b: BatchId)

  /** Life of an instance; Expire is the loss of the heartbeat key. */
  datatype LifeOp = Start | Stop | Crash | Expire | Deregister

  /** Begin and end of a block, and tracking. */
  datatype BlockOp = Claim(block: set<RowId>) | Track(r: RowId) | EndBlock

  /**
   The iteration for one row.  A configuration error is found before the processor runs; between
   the start of the processor and the write of its result the process may crash.
   */
  datatype RowOp =
    | Refuse(r: RowId, scope: Scope)
    | Call(r: RowId)
    | Return(outcome: Outcome)
    | SlowFinish
    | Untrack
    | BulkFail
    | FailRow
    | FailBatch
    | FailSlowBatch

  datatype SumOp = Begin | CountQueued | CountInprog | TakeTally | CallMarkDone | Commit | Rollback

  /** Recovery with separate statements, or all of it at once. */
  datatype RecOp =
    | ReadIds(p: RecId, d: Instance)
    | Reset(p: RecId)
    | DeleteIds(p: RecId)
    | Remove(p: RecId)
    | GiveUp(p: RecId)
    | Atomic(d: Instance)

  datatype Step =
    | Caller(c: CallerOp)
    | Life(i: Instance, life: LifeOp)
    | Block(i: Instance, block: BlockOp)
    | InLoop(i: Instance, op: RowOp)
    | Sweep
    | Summary(b: BatchId, sum: SumOp)
    | Recovery(rec: RecOp)

  /** Worker i stands inside a row. */
  predicate InRow(s: State, i: Instance) {
    i in s.insts && s.insts[i].worker.Looping? && s.insts[i].worker.at.AtRow? && s.insts[i].worker.at.r in s.rows
  }

  function CurRow(s: State, i: Instance): RowId
    requires InRow(s, i)
  {
    s.insts[i].worker.at.r
  }

  function CurPc(s: State, i: Instance): Pc
    requires InRow(s, i)
  {
    s.insts[i].worker.at.pc
  }

  function CurBatch(s: State, i: Instance): BatchId
    requires InRow(s, i)
  {
    s.rows[CurRow(s, i)].batch
  }

  /** The iteration for the current row ends. */
  function EndRow(w: Worker): Worker
    requires w.Looping? && w.at.AtRow?
  {
    w.(left := w.left - {w.at.r}, at := Between)
  }

  /** The rows a reset of `ids` changes: the guard AND status = 'inprog'. */
  function Resettable(s: State, ids: set<RowId>): set<RowId> {
    set r | r in ids && r in s.rows && s.rows[r].status.Inprog?
  }

  /** History of a reset: every summarisation that has counted queued rows records it. */
  function NoteReset(s: State, hit: set<RowId>): map<BatchId, Sum> {
    map b | b in s.sums ::
      if s.sums[b].phase.NoQueued?
      then s.sums[b].(dirty := s.sums[b].dirty + (set r | r in hit && r in s.rows && s.rows[r].batch == b))
      else s.sums[b]
  }

  function DoReset(s: State, ids: set<RowId>): State {
    var hit := Resettable(s, ids);
    s.(rows := ResetRows(s.rows, hit), sums := NoteReset(s, hit), nresets := s.nresets + |hit|)
  }

  predicate CallerEnabled(s: State, c: CallerOp) {
    match c
    case Submit(b, lines, _) =>
      b !in s.batches && lines.Keys !! s.rows.Keys && forall r :: r in lines ==> lines[r] > 0
    case SubmitSlow(b, r) => b !in s.batches && r !in s.rows
    case Append(b, lines, _) =>
      b in s.batches && s.batches[b].status.Wait? && b !in s.sums && lines.Keys !! s.rows.Keys &&
      forall r :: r in lines ==> lines[r] > 0
    case WaitOff(b) => b in s.batches && s.batches[b].status.Wait? && b !in s.sums
    case Abort(b) =>
      b in s.batches && !Terminal(s.batches[b].status) && b !in s.sums && PendingIn(s.rows, b) != {}
  }

  predicate LifeEnabled(s: State, i: Instance, life: LifeOp) {
    match life
    case Start => i !in s.insts
    case Stop => i in s.insts && s.insts[i].worker.Idle?
    case Crash => i in s.insts && Alive(s.insts[i].worker)
    case Expire => i in s.insts && !Alive(s.insts[i].worker)
    case Deregister => i in s.insts && s.insts[i].worker.Stopped? && !s.insts[i].beating
  }

  /** FetchBlockOfRows: queued rows of batches that are not in wait; locked batches are skipped. */
  predicate Claimable(s: State, r: RowId) {
    r in s.rows && s.rows[r].status.Queued? && s.rows[r].batch in s.batches &&
    !s.batches[s.rows[r].batch].status.Wait? && s.rows[r].batch !in s.sums
  }

  predicate BlockEnabled(s: State, i: Instance, op: BlockOp) {
    i in s.insts &&
    match op
    case Claim(block) =>
      s.insts[i].worker.Idle? && block != {} && |block| <= s.chunk && block <= s.rows.Keys &&
      forall r :: r in block ==> Claimable(s, r)
    case Track(r) => s.insts[i].worker.Tracking? && r in s.insts[i].worker.untracked
    case EndBlock =>
      s.insts[i].worker.Looping? && s.insts[i].worker.at.Between? && s.insts[i].worker.left == {} &&
      s.insts[i].worker.block <= s.rows.Keys
  }

  /** Worker i can start the iteration for row r. */
  predicate CanTake(s: State, i: Instance, r: RowId) {
    i in s.insts && s.insts[i].worker.Looping? && s.insts[i].worker.at.Between? &&
    r in s.insts[i].worker.left && r in s.rows
  }

  predicate RowEnabled(s: State, i: Instance, op: RowOp) {
    match op
    case Refuse(r, _) => CanTake(s, i, r)
    case Call(r) => CanTake(s, i, r)
    case Return(outcome) =>
      InRow(s, i) && CurPc(s, i).Running? && !outcome.Config? &&
      (outcome.Result? ==> Terminal(outcome.st) && !RowsLocked(s, CurBatch(s, i)))
    case SlowFinish => InRow(s, i) && CurPc(s, i).SlowWritten? && BatchFree(s, CurBatch(s, i))
    case Untrack => InRow(s, i) && CurPc(s, i).Untracking?
    case BulkFail => InRow(s, i) && CurPc(s, i).BulkFailing? && !RowsLocked(s, CurBatch(s, i))
    case FailRow => InRow(s, i) && CurPc(s, i).RowFailing? && !RowsLocked(s, CurBatch(s, i))
    case FailBatch => InRow(s, i) && CurPc(s, i).BatchFailing? && BatchFree(s, CurBatch(s, i))
    case FailSlowBatch => InRow(s, i) && CurPc(s, i).SlowFailing? && BatchFree(s, CurBatch(s, i))
  }

  /** No summarisation holds the row lock of the batch record. */
  predicate BatchFree(s: State, b: BatchId) {
    b in s.batches && b !in s.sums
  }

  predicate SumEnabled(s: State, b: BatchId, op: SumOp) {
    b in s.batches &&
    if op.Begin? then b in s.candidates && b !in s.sums else
      b in s.sums &&
      match op
      case CountQueued => s.sums[b].phase.Locked?
      case CountInprog => s.sums[b].phase.NoQueued?
      case TakeTally => s.sums[b].phase.NoInprog?
      case CallMarkDone => s.sums[b].phase.Tallied?
      case Commit => s.sums[b].phase.Marked?
      case _ => true
  }

  predicate RecEnabled(s: State, op: RecOp) {
    match op
    case ReadIds(p, d) => p !in s.recs && d in s.insts && s.insts[d].registered && !s.insts[d].beating
    case Reset(p) => p in s.recs && s.recs[p].phase.HasRead? && ResetEnabled(s, s.recs[p].ids)
    case DeleteIds(p) => p in s.recs && s.recs[p].phase.HasReset? && s.recs[p].target in s.insts
    case Remove(p) => p in s.recs && s.recs[p].phase.HasDeleted? && s.recs[p].target in s.insts
    case GiveUp(p) => p in s.recs
    case Atomic(d) =>
      d in s.insts && s.insts[d].registered && !s.insts[d].beating && ResetEnabled(s, s.insts[d].tracked)
  }

  predicate ResetEnabled(s: State, ids: set<RowId>) {
    forall r :: r in Resettable(s, ids) ==> !RowsLocked(s, s.rows[r].batch)
  }

  predicate Enabled(s: State, step: Step) {
    match step
    case Caller(c) => CallerEnabled(s, c)
    case Life(i, life) => LifeEnabled(s, i, life)
    case Block(i, op) => BlockEnabled(s, i, op)
    case InLoop(i, op) => RowEnabled(s, i, op)
    case Sweep => true
    case Summary(b, op) => SumEnabled(s, b, op)
    case Recovery(op) => RecEnabled(s, op)
  }

  function DoSubmit(s: State, b: BatchId, lines: map<RowId, int>, st: Status): State {
    s.(batches := s.batches[b := Batch(st, false, None, 0, 0, 0, {})], rows := InsertRows(s.rows, b, lines))
  }

  function DoAppend(s: State, b: BatchId, lines: map<RowId, int>, waitabit: bool): State
    requires b in s.batches
  {
    s.(rows := InsertRows(s.rows, b, lines),
       batches := if waitabit then s.batches
                  else s.batches[b := s.batches[b].(status := Queued, done := false, counts := None)])
  }

  function DoAbort(s: State, b: BatchId): State
    requires b in s.batches
  {
    var rows := Mark(s.rows, PendingIn(s.rows, b), Aborted);
    s.(rows := rows,
       batches := s.batches[b := s.batches[b].(status := Aborted, done := true, counts := Some(TallyOf(rows, b)))])
  }

  function DoCrash(s: State, i: Instance): State
    requires i in s.insts
  {
    var lost := set r | r in s.rows && s.rows[r].status.Inprog? && s.rows[r].owner == i && r !in s.insts[i].tracked;
    SetWorker(s, i, Dead).(stranded := s.stranded + lost, crashed := s.crashed + {i})
  }

  function DoClaim(s: State, i: Instance, block: set<RowId>): State
    requires i in s.insts && block <= s.rows.Keys
  {
    SetWorker(s, i, Tracking(block, block)).(
      rows := ClaimRows(s.rows, block, i), batches := StartBatches(s, block), nclaims := s.nclaims + |block|)
  }

  /** SADD for one row; after the last one the loop over the block starts. */
  function DoTrack(s: State, i: Instance, r: RowId): State
    requires i in s.insts && s.insts[i].worker.Tracking?
  {
    var w := s.insts[i].worker;
    var rest := w.untracked - {r};
    var w' := if rest == {} then Looping(w.block, w.block, Between, {}) else Tracking(w.block, rest);
    s.(insts := s.insts[i := s.insts[i].(worker := w', tracked := s.insts[i].tracked + {r})])
  }

  function DoRefuse(s: State, i: Instance, r: RowId, scope: Scope): State
    requires CanTake(s, i, r)
  {
    SetWorker(s, i, s.insts[i].worker.(at := AtRow(r, Untracking(ConfigErr(scope)))))
  }

  /** The processor is called: from here on the run counts, whether or not its result is written. */
  function DoCall(s: State, i: Instance, r: RowId): State
    requires CanTake(s, i, r)
  {
    SetWorker(s, i, s.insts[i].worker.(at := AtRow(r, Running))).(
      rows := s.rows[r := s.rows[r].(unrun := false)], nexecs := s.nexecs + 1)
  }

  /** The processor is back: a result is written, a panic is not. */
  function DoReturn(s: State, i: Instance, outcome: Outcome): State
    requires InRow(s, i) && CurPc(s, i).Running? && !outcome.Config?
  {
    var r, w := CurRow(s, i), s.insts[i].worker;
    match outcome
    case Panic => SetWorker(s, i, w.(at := AtRow(r, Untracking(PanicErr))))
    case Result(st) =>
      var pc := if s.rows[r].line == 0 then SlowWritten(st) else Untracking(NoErr);
      SetWorker(s, i, w.(at := AtRow(r, pc))).(rows := s.rows[r := s.rows[r].(status := st)])
  }

  /** handleProcessingError: where the loop goes once the row is untracked. */
  function AfterUntrack(w: Worker, b: BatchId): Worker
    requires w.Looping? && w.at.AtRow? && w.at.pc.Untracking?
  {
    match w.at.pc.err
    case NoErr => EndRow(w)
    case PanicErr => w.(at := AtRow(w.at.r, RowFailing(false)))
    case ConfigErr(scope) =>
      if (b, scope) in w.keys then EndRow(w) else w.(at := AtRow(w.at.r, BulkFailing(scope)))
  }

  /** SREM, then the dispatch on the error. */
  function DoUntrack(s: State, i: Instance): State
    requires InRow(s, i) && CurPc(s, i).Untracking?
  {
    var x := s.insts[i];
    s.(insts := s.insts[i := x.(worker := AfterUntrack(x.worker, CurBatch(s, i)),
                                tracked := x.tracked - {x.worker.at.r})])
  }

  /** markAllRowsWithSameAppOpAsFailed and markAllRowsWithSameAppAsFailed: app and op are the batch's own. */
  function DoBulkFail(s: State, i: Instance): State
    requires InRow(s, i) && CurPc(s, i).BulkFailing?
  {
    var b := CurBatch(s, i);
    var w := s.insts[i].worker;
    SetWorker(s, i, Looping(w.block, w.left, AtRow(w.at.r, RowFailing(true)), w.keys + {(b, w.at.pc.scope)})).(
      rows := Mark(s.rows, PendingIn(s.rows, b), Failed))
  }

  function AfterFailRow(w: Worker, line: int): Worker
    requires w.Looping? && w.at.AtRow? && w.at.pc.RowFailing?
  {
    if w.at.pc.config then w.(at := AtRow(w.at.r, BatchFailing))
    else if line == 0 then w.(at := AtRow(w.at.r, SlowFailing))
    else EndRow(w)
  }

  function DoFailRow(s: State, i: Instance): State
    requires InRow(s, i) && CurPc(s, i).RowFailing?
  {
    var r := CurRow(s, i);
    SetWorker(s, i, AfterFailRow(s.insts[i].worker, s.rows[r].line)).(rows := s.rows[r := s.rows[r].(status := Failed)])
  }

  function DoFailBatch(s: State, i: Instance): State
    requires InRow(s, i) && CurBatch(s, i) in s.batches
  {
    var b := CurBatch(s, i);
    SetWorker(s, i, EndRow(s.insts[i].worker)).(
      batches := s.batches[b := s.batches[b].(status := Failed, done := true, counts := None)])
  }

  /** UpdateBatchResult leaves the counters alone. */
  function BatchResult(x: Batch, st: Status): Batch {
    x.(status := st, done := true)
  }

  function DoSlowFinish(s: State, i: Instance): State
    requires InRow(s, i) && CurPc(s, i).SlowWritten? && CurBatch(s, i) in s.batches
  {
    var b := CurBatch(s, i);
    var w := s.insts[i].worker;
    SetWorker(s, i, w.(at := AtRow(w.at.r, Untracking(NoErr)))).(
      batches := s.batches[b := BatchResult(s.batches[b], w.at.pc.st)])
  }

  function DoFailSlowBatch(s: State, i: Instance): State
    requires InRow(s, i) && CurBatch(s, i) in s.batches
  {
    var b := CurBatch(s, i);
    SetWorker(s, i, EndRow(s.insts[i].worker)).(batches := s.batches[b := BatchResult(s.batches[b], Failed)])
  }

  function DoEndBlock(s: State, i: Instance): State
    requires i in s.insts && s.insts[i].worker.Looping? && s.insts[i].worker.block <= s.rows.Keys
  {
    var block := s.insts[i].worker.block;
    SetWorker(s, i, Idle).(candidates := s.candidates + (set r | r in block :: s.rows[r].batch))
  }

  function DoSumBegin(s: State, b: BatchId): State
    requires b in s.batches
  {
    if s.batches[b].done then s else s.(sums := s.sums[b := Sum(Locked, Tally(0, 0, 0), {})])
  }

  function DoSumQueued(s: State, b: BatchId): State
    requires b in s.sums
  {
    if RowsIn(s.rows, b, Queued) != {} then CloseSum(s, b) else s.(sums := s.sums[b := s.sums[b].(phase := NoQueued)])
  }

  function DoSumInprog(s: State, b: BatchId): State
    requires b in s.sums
  {
    if RowsIn(s.rows, b, Inprog) != {} then CloseSum(s, b) else s.(sums := s.sums[b := s.sums[b].(phase := NoInprog)])
  }

  function DoSumTally(s: State, b: BatchId): State
    requires b in s.sums
  {
    s.(sums := s.sums[b := s.sums[b].(phase := Tallied, tally := TallyOf(s.rows, b))])
  }

  /** The summary is written inside the transaction and MarkDone runs before the commit. */
  function DoSumMark(s: State, b: BatchId): State
    requires b in s.sums && b in s.batches
  {
    s.(sums := s.sums[b := s.sums[b].(phase := Marked)],
       batches := s.batches[b := s.batches[b].(marks := s.batches[b].marks + 1)])
  }

  function DoSumCommit(s: State, b: BatchId): State
    requires b in s.sums && b in s.batches
  {
    var t := s.sums[b].tally;
    CloseSum(SetBatch(s, b, s.batches[b].(status := DetermineBatchStatus(t), done := true, counts := Some(t),
                                          commits := s.batches[b].commits + 1, raced := s.sums[b].dirty)), b)
  }

  /** Rollback: an error, a crash of the process, or a lost commit. */
  function DoSumDrop(s: State, b: BatchId): State
    requires b in s.sums && b in s.batches
  {
    if s.sums[b].phase.Marked?
    then CloseSum(SetBatch(s, b, s.batches[b].(lostMarks := s.batches[b].lostMarks + 1)), b)
    else CloseSum(s, b)
  }

  function DoRecDelete(s: State, p: RecId): State
    requires p in s.recs && s.recs[p].target in s.insts
  {
    var d := s.recs[p].target;
    s.(insts := s.insts[d := s.insts[d].(tracked := {})], recs := s.recs[p := s.recs[p].(phase := HasDeleted)])
  }

  function DoRecRemove(s: State, p: RecId): State
    requires p in s.recs && s.recs[p].target in s.insts
  {
    var d := s.recs[p].target;
    s.(insts := s.insts[d := s.insts[d].(registered := false)], recs := s.recs - {p})
  }

  function DoRecAtomic(s: State, d: Instance): State
    requires d in s.insts
  {
    var t := DoReset(s, s.insts[d].tracked);
    t.(insts := s.insts[d := s.insts[d].(registered := false, tracked := {})],
       recovered := if Resettable(s, s.insts[d].tracked) == {} then s.recovered else s.recovered + {d})
  }

  function ApplyCaller(s: State, c: CallerOp): State
    requires CallerEnabled(s, c)
  {
    match c
    case Submit(b, lines, waitabit) => DoSubmit(s, b, lines, if waitabit then Wait else Queued)
    case SubmitSlow(b, r) => DoSubmit(s, b, map[r := 0], Queued)
    case Append(b, lines, waitabit) => DoAppend(s, b, lines, waitabit)
    case WaitOff(b) => SetBatch(s, b, s.batches[b].(status := Queued, done := false, counts := None))
    case Abort(b) => DoAbort(s, b)
  }

  function ApplyLife(s: State, i: Instance, life: LifeOp): State
    requires LifeEnabled(s, i, life)
  {
    match life
    case Start => s.(insts := s.insts[i := Inst(Idle, true, true, {})])
    case Stop => SetWorker(s, i, Stopped)
    case Crash => DoCrash(s, i)
    case Expire => s.(insts := s.insts[i := s.insts[i].(beating := false)])
    case Deregister => s.(insts := s.insts[i := s.insts[i].(registered := false)])
  }

  function ApplyBlock(s: State, i: Instance, op: BlockOp): State
    requires BlockEnabled(s, i, op)
  {
    match op
    case Claim(block) => DoClaim(s, i, block)
    case Track(r) => DoTrack(s, i, r)
    case EndBlock => DoEndBlock(s, i)
  }

  function ApplyRow(s: State, i: Instance, op: RowOp): State
    requires RowEnabled(s, i, op)
  {
    match op
    case Refuse(r, scope) => DoRefuse(s, i, r, scope)
    case Call(r) => DoCall(s, i, r)
    case Return(outcome) => DoReturn(s, i, outcome)
    case SlowFinish => DoSlowFinish(s, i)
    case Untrack => DoUntrack(s, i)
    case BulkFail => DoBulkFail(s, i)
    case FailRow => DoFailRow(s, i)
    case FailBatch => DoFailBatch(s, i)
    case FailSlowBatch => DoFailSlowBatch(s, i)
  }

  function ApplySum(s: State, b: BatchId, op: SumOp): State
    requires SumEnabled(s, b, op)
  {
    match op
    case Begin => DoSumBegin(s, b)
    case CountQueued => DoSumQueued(s, b)
    case CountInprog => DoSumInprog(s, b)
    case TakeTally => DoSumTally(s, b)
    case CallMarkDone => DoSumMark(s, b)
    case Commit => DoSumCommit(s, b)
    case Rollback => DoSumDrop(s, b)
  }

  function ApplyRec(s: State, op: RecOp): State
    requires RecEnabled(s, op)
  {
    match op
    case ReadIds(p, d) => s.(recs := s.recs[p := Rec(d, HasRead, s.insts[d].tracked)])
    case Reset(p) => DoReset(s, s.recs[p].ids).(recs := s.recs[p := s.recs[p].(phase := HasReset)])
    case DeleteIds(p) => DoRecDelete(s, p)
    case Remove(p) => DoRecRemove(s, p)
    case GiveUp(p) => s.(recs := s.recs - {p})
    case Atomic(d) => DoRecAtomic(s, d)
  }

  function Apply(s: State, step: Step): State
    requires Enabled(s, step)
  {
    match step
    case Caller(c) => ApplyCaller(s, c)
    case Life(i, life) => ApplyLife(s, i, life)
    case Block(i, op) => ApplyBlock(s, i, op)
    case InLoop(i, op) => ApplyRow(s, i, op)
    case Sweep => s.(candidates := s.candidates + Unsummarized(s))
    case Summary(b, op) => ApplySum(s, b, op)
    case Recovery(op) => ApplyRec(s, op)
  }

  // ---------------------------------------------------------------- runs

  ghost predicate Run(s: State, steps: seq<Step>, t: State)
    decreases |steps|
  {
    if steps == [] then s == t else Enabled(s, steps[0]) && Run(Apply(s, steps[0]), steps[1..], t)
  }

  ghost predicate Reachable(s: State) {
    exists steps :: Run(Initial(s.chunk), steps, s)
  }

  /** The rows a step resets; none for a step that is not a reset. */
  function ResetIds(s: State, step: Step): set<RowId> {
    if step.Recovery? && step.rec.Reset? && step.rec.p in s.recs then Resettable(s, s.recs[step.rec.p].ids)
    else if step.Recovery? && step.rec.Atomic? && step.rec.d in s.insts then Resettable(s, s.insts[step.rec.d].tracked)
    else {}
  }

  /** A step of a run without aborts and without configuration errors. */
  predicate Plain(step: Step) {
    match step
    case Caller(c) => !c.Abort?
    case InLoop(_, op) => !op.Refuse?
    case _ => true
  }

  /** Plain, and with recovery as one step. */
  predicate Clean(step: Step) {
    Plain(step) && (step.Recovery? ==> step.rec.Atomic?)
  }

  ghost predicate AllPlain(steps: seq<Step>) {
    forall k :: 0 <= k < |steps| ==> Plain(steps[k])
  }

  ghost predicate AllClean(steps: seq<Step>) {
    forall k :: 0 <= k < |steps| ==> Clean(steps[k])
  }

  ghost predicate CleanReachable(s: State) {
    exists steps :: Run(Initial(s.chunk), steps, s) && AllClean(steps)
  }
}
