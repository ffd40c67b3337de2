/**
 What the history fields count, and the bounds they give, said of the steps of a run: processor
 runs, claims, crashes, commits of a summary and MarkDone calls.
 */
module BatchHistory {
  import opened BatchProtocol
  import opened BatchStructure
  import opened Collections
  import Rework = BatchRework
  import Summ = BatchSummary

  // ---------------------------------------------------------------- steps of a run

  /** The step starts the processor. */
  predicate StartsRun(step: Step) {
    step.InLoop? && step.op.Call?
  }

  predicate IsCrash(step: Step) {
    step.Life? && step.life.Crash?
  }

  predicate IsCommit(step: Step, b: BatchId) {
    step == Summary(b, Commit)
  }

  predicate CallsMarkDone(step: Step, b: BatchId) {
    step == Summary(b, CallMarkDone)
  }

  /** Rows that the step claims. */
  function ClaimedBy(step: Step): nat {
    if step.Block? && step.block.Claim? then |step.block.block| else 0
  }

  function Runs(steps: seq<Step>): nat {
    if steps == [] then 0 else (if StartsRun(steps[0]) then 1 else 0) + Runs(steps[1..])
  }

  function Claims(steps: seq<Step>): nat {
    if steps == [] then 0 else ClaimedBy(steps[0]) + Claims(steps[1..])
  }

  function Crashes(steps: seq<Step>): nat {
    if steps == [] then 0 else (if IsCrash(steps[0]) then 1 else 0) + Crashes(steps[1..])
  }

  function Commits(steps: seq<Step>, b: BatchId): nat {
    if steps == [] then 0 else (if IsCommit(steps[0], b) then 1 else 0) + Commits(steps[1..], b)
  }

  function MarkDones(steps: seq<Step>, b: BatchId): nat {
    if steps == [] then 0 else (if CallsMarkDone(steps[0], b) then 1 else 0) + MarkDones(steps[1..], b)
  }

  function Rollbacks(steps: seq<Step>, b: BatchId): nat {
    if steps == [] then 0 else (if steps[0] == Summary(b, Rollback) then 1 else 0) + Rollbacks(steps[1..], b)
  }

  // ---------------------------------------------------------------- rows that go back to the queue

  /** Rows that were in process before and are queued after. */
  ghost function Requeued(s: State, t: State): set<RowId> {
    set r | r in s.rows && s.rows[r].status.Inprog? && r in t.rows && t.rows[r].status.Queued?
  }

  /** How many rows go back to the queue along the run. */
  ghost function Resets(s: State, steps: seq<Step>): nat
    decreases |steps|
  {
    if steps == [] || !Enabled(s, steps[0]) then 0
    else |Requeued(s, Apply(s, steps[0]))| + Resets(Apply(s, steps[0]), steps[1..])
  }

  // ---------------------------------------------------------------- what the fields count

  ghost predicate Counts(s: State, step: Step, t: State) {
    && t.nexecs == s.nexecs + (if StartsRun(step) then 1 else 0)
    && t.nclaims == s.nclaims + ClaimedBy(step)
    && t.nresets == s.nresets + |Requeued(s, t)|
    && |t.crashed| <= |s.crashed| + (if IsCrash(step) then 1 else 0)
  }

  lemma NoneRequeued(s: State, t: State)
    requires forall r :: r in s.rows && s.rows[r].status.Inprog? ==> r in t.rows && !t.rows[r].status.Queued?
    ensures Requeued(s, t) == {}
  {
    assert forall r :: r !in Requeued(s, t);
  }

  lemma CountsCaller(s: State, c: CallerOp)
    requires CallerEnabled(s, c)
    ensures Counts(s, Caller(c), ApplyCaller(s, c))
  {
    CallerFrame(s, c);
    NoneRequeued(s, ApplyCaller(s, c));
  }

  lemma CountsLife(s: State, i: Instance, life: LifeOp)
    requires LifeEnabled(s, i, life)
    ensures Counts(s, Life(i, life), ApplyLife(s, i, life))
  {
    NoneRequeued(s, ApplyLife(s, i, life));
    UnionSize(s.crashed + {i}, s.crashed, {i});
  }

  lemma CountsBlock(s: State, i: Instance, op: BlockOp)
    requires BlockEnabled(s, i, op)
    ensures Counts(s, Block(i, op), ApplyBlock(s, i, op))
  {
    BlockFrame(s, i, op);
    NoneRequeued(s, ApplyBlock(s, i, op));
  }

  lemma CountsRow(s: State, i: Instance, op: RowOp)
    requires RowEnabled(s, i, op)
    ensures Counts(s, InLoop(i, op), ApplyRow(s, i, op))
  {
    RowFrame(s, i, op);
    NoneRequeued(s, ApplyRow(s, i, op));
  }

  lemma CountsSum(s: State, b: BatchId, op: SumOp)
    requires SumEnabled(s, b, op)
    ensures Counts(s, Summary(b, op), ApplySum(s, b, op))
  {
    SumFrame(s, b, op);
    NoneRequeued(s, ApplySum(s, b, op));
  }

  lemma CountsRec(s: State, op: RecOp)
    requires RecEnabled(s, op)
    ensures Counts(s, Recovery(op), ApplyRec(s, op))
  {
    var t, hit := ApplyRec(s, op), ResetIds(s, Recovery(op));
    forall r ensures r in Requeued(s, t) <==> r in hit {}
    assert Requeued(s, t) == hit;
  }

  /** What each step adds to the history of the state. */
  lemma StepCounts(s: State, step: Step)
    requires Enabled(s, step)
    ensures Counts(s, step, Apply(s, step))
  {
    match step
    case Caller(c) => CountsCaller(s, c);
    case Life(i, life) => CountsLife(s, i, life);
    case Block(i, op) => CountsBlock(s, i, op);
    case InLoop(i, op) => CountsRow(s, i, op);
    case Sweep => NoneRequeued(s, Apply(s, step));
    case Summary(b, op) => CountsSum(s, b, op);
    case Recovery(op) => CountsRec(s, op);
  }

  /** The history fields count what happened along the run. */
  lemma {:induction false} RunCounts(s: State, steps: seq<Step>, t: State)
    requires Run(s, steps, t)
    ensures t.nexecs == s.nexecs + Runs(steps) && t.nclaims == s.nclaims + Claims(steps)
    ensures t.nresets == s.nresets + Resets(s, steps) && |t.crashed| <= |s.crashed| + Crashes(steps)
    decreases |steps|
  {
    if steps != [] {
      StepCounts(s, steps[0]);
      RunCounts(Apply(s, steps[0]), steps[1..], t);
    }
  }

  /**
   Bounded rework, said of the run: the processor is started, and a row claimed, at most once for
   each row and once more for each row of a block for each crash.
   */
  lemma RunsBounded(chunk: nat, steps: seq<Step>, t: State)
    requires Run(Initial(chunk), steps, t) && AllClean(steps)
    ensures Resets(Initial(chunk), steps) <= chunk * Crashes(steps)
    ensures Runs(steps) <= Claims(steps) <= |t.rows| + chunk * Crashes(steps)
  {
    RunCounts(Initial(chunk), steps, t);
    SameChunk(Initial(chunk), steps, t);
    assert CleanReachable(t);
    Rework.ReworkBounded(t);
    Rework.AllowanceIsProduct(chunk, |t.crashed|);
    Rework.AllowanceIsProduct(chunk, Crashes(steps));
    Rework.AllowanceGrows(chunk, |t.crashed|, Crashes(steps));
  }

  // ---------------------------------------------------------------- commits of one batch

  function CommitsOf(s: State, b: BatchId): nat {
    if b in s.batches then s.batches[b].commits else 0
  }

  function MarksOf(s: State, b: BatchId): nat {
    if b in s.batches then s.batches[b].marks else 0
  }

  function LostOf(s: State, b: BatchId): nat {
    if b in s.batches then s.batches[b].lostMarks else 0
  }

  ghost predicate CountsBatch(s: State, step: Step, t: State, b: BatchId) {
    && CommitsOf(t, b) == CommitsOf(s, b) + (if IsCommit(step, b) then 1 else 0)
    && MarksOf(t, b) == MarksOf(s, b) + (if CallsMarkDone(step, b) then 1 else 0)
    && LostOf(t, b) <= LostOf(s, b) + (if step == Summary(b, Rollback) then 1 else 0)
  }

  lemma BatchCaller(s: State, c: CallerOp, b: BatchId)
    requires CallerEnabled(s, c)
    ensures CountsBatch(s, Caller(c), ApplyCaller(s, c), b)
  {}

  lemma BatchBlock(s: State, i: Instance, op: BlockOp, b: BatchId)
    requires BlockEnabled(s, i, op)
    ensures CountsBatch(s, Block(i, op), ApplyBlock(s, i, op), b)
  {}

  lemma BatchRow(s: State, i: Instance, op: RowOp, b: BatchId)
    requires RowEnabled(s, i, op)
    ensures CountsBatch(s, InLoop(i, op), ApplyRow(s, i, op), b)
  {}

  lemma BatchSum(s: State, c: BatchId, op: SumOp, b: BatchId)
    requires SumEnabled(s, c, op)
    ensures CountsBatch(s, Summary(c, op), ApplySum(s, c, op), b)
  {}

  lemma BatchLife(s: State, i: Instance, life: LifeOp, b: BatchId)
    requires LifeEnabled(s, i, life)
    ensures CountsBatch(s, Life(i, life), ApplyLife(s, i, life), b)
  {}

  lemma BatchRec(s: State, op: RecOp, b: BatchId)
    requires RecEnabled(s, op)
    ensures CountsBatch(s, Recovery(op), ApplyRec(s, op), b)
  {}

  lemma StepCountsBatch(s: State, step: Step, b: BatchId)
    requires Enabled(s, step)
    ensures CountsBatch(s, step, Apply(s, step), b)
  {
    match step
    case Caller(c) => BatchCaller(s, c, b);
    case Life(i, life) => BatchLife(s, i, life, b);
    case Block(i, op) => BatchBlock(s, i, op, b);
    case InLoop(i, op) => BatchRow(s, i, op, b);
    case Sweep =>
    case Summary(c, op) => BatchSum(s, c, op, b);
    case Recovery(op) => BatchRec(s, op, b);
  }

  lemma {:induction false} RunCountsBatch(s: State, steps: seq<Step>, t: State, b: BatchId)
    requires Run(s, steps, t)
    ensures CommitsOf(t, b) == CommitsOf(s, b) + Commits(steps, b)
    ensures MarksOf(t, b) == MarksOf(s, b) + MarkDones(steps, b)
    ensures LostOf(t, b) <= LostOf(s, b) + Rollbacks(steps, b)
    decreases |steps|
  {
    if steps != [] {
      StepCountsBatch(s, steps[0], b);
      RunCountsBatch(Apply(s, steps[0]), steps[1..], t, b);
    }
  }

  /**
   One summary for a batch, said of the run: at most one commits, over all workers, retries and
   sweeps, and MarkDone is called at most once more than a summary is rolled back.
   */
  lemma OneSummary(chunk: nat, steps: seq<Step>, t: State, b: BatchId)
    requires Run(Initial(chunk), steps, t)
    ensures Commits(steps, b) <= 1 && MarkDones(steps, b) <= 1 + Rollbacks(steps, b)
  {
    RunCountsBatch(Initial(chunk), steps, t, b);
    SameChunk(Initial(chunk), steps, t);
    assert Reachable(t);
    if b in t.batches { Summ.AtMostOneSummary(t, b); }
  }
}
