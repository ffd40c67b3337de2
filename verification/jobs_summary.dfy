/** Summarisation in every interleaving: what a committed summary says, and how often it happens. */
module BatchSummary {
  import opened BatchProtocol
  import opened BatchStructure
  import opened Collections
  import Loop = BatchLoop

  /** Facts about one row that an open summarisation of its batch relies on. */
  ghost predicate SumRowOk(x: Sum, r: RowId, row: Row) {
    && (row.status.Queued? && !x.phase.Locked? ==> r in x.dirty)
    && (row.status.Inprog? ==> x.phase.Locked? || x.phase.NoQueued?)
  }

  /**
   An open summarisation knows: after the queued count, what is queued was reset since; after
   the inprog count nothing is inprog; after the rows are locked the tally is exact.
   */
  ghost predicate SumOk(s: State, b: BatchId, x: Sum) {
    && (x.phase.Locked? ==> x.dirty == {})
    && (forall r :: r in x.dirty ==> r in s.rows && s.rows[r].batch == b)
    && (forall r :: r in s.rows && s.rows[r].batch == b ==> SumRowOk(x, r, s.rows[r]))
    && (x.phase.Tallied? || x.phase.Marked? ==> x.tally == TallyOf(s.rows, b))
  }

  ghost predicate AllSumsOk(s: State) {
    forall b :: b in s.sums ==> SumOk(s, b, s.sums[b])
  }

  /** A done batch has no pending row but those that recovery reset inside its summarisation. */
  ghost predicate DoneOk(s: State, b: BatchId)
    requires b in s.batches
  {
    s.batches[b].done ==>
      forall r :: r in s.rows && s.rows[r].batch == b && Pending(s.rows[r].status) ==> r in s.batches[b].raced
  }

  function InFlightMark(s: State, b: BatchId): nat {
    if b in s.sums && s.sums[b].phase.Marked? then 1 else 0
  }

  ghost predicate MarksOk(s: State, b: BatchId)
    requires b in s.batches
  {
    var x := s.batches[b];
    x.commits <= 1 && (x.commits == 1 ==> x.done) && x.marks == x.commits + x.lostMarks + InFlightMark(s, b)
  }

  ghost predicate BatchesDone(s: State) {
    forall b :: b in s.batches ==> DoneOk(s, b) && MarksOk(s, b)
  }

  ghost predicate Inv(s: State) {
    Loop.Inv(s) && AllSumsOk(s) && BatchesDone(s)
  }

  // ---------------------------------------------------------------- frames

  /** The rows of the batch, and what the queries read from them, are unchanged. */
  ghost predicate SameRows(s: State, t: State, b: BatchId) {
    && (forall r :: r in s.rows && s.rows[r].batch == b ==>
        r in t.rows && t.rows[r].batch == b && t.rows[r].status == s.rows[r].status)
    && (forall r :: r in t.rows && t.rows[r].batch == b ==> r in s.rows && s.rows[r].batch == b)
  }

  lemma SameRowsIn(s: State, t: State, b: BatchId, st: Status)
    requires SameRows(s, t, b)
    ensures RowsIn(t.rows, b, st) == RowsIn(s.rows, b, st)
  {
    forall r
      ensures r in RowsIn(t.rows, b, st) <==> r in RowsIn(s.rows, b, st)
    {
      assert r in s.rows && s.rows[r].batch == b ==> r in t.rows;
    }
  }

  lemma SameQueries(s: State, t: State, b: BatchId)
    requires SameRows(s, t, b)
    ensures RowsIn(t.rows, b, Queued) == RowsIn(s.rows, b, Queued)
    ensures RowsIn(t.rows, b, Inprog) == RowsIn(s.rows, b, Inprog)
    ensures TallyOf(t.rows, b) == TallyOf(s.rows, b)
  {
    SameRowsIn(s, t, b, Queued);
    SameRowsIn(s, t, b, Inprog);
    SameRowsIn(s, t, b, Success);
    SameRowsIn(s, t, b, Failed);
    SameRowsIn(s, t, b, Aborted);
  }

  lemma SameRowsKeepSum(s: State, t: State, b: BatchId, x: Sum)
    requires SumOk(s, b, x) && SameRows(s, t, b)
    ensures SumOk(t, b, x)
  {
    SameQueries(s, t, b);
  }

  lemma GrowsKeepsDone(s: State, t: State, b: BatchId)
    requires Structure(s) && Grows(s, t) && b in s.batches && s.batches[b].done && DoneOk(s, b)
    requires t.batches[b].raced == s.batches[b].raced
    ensures DoneOk(t, b)
  {
    forall r | r in t.rows && t.rows[r].batch == b && Pending(t.rows[r].status)
      ensures r in s.batches[b].raced
    {
      assert r in s.rows && RowOk(s, r);
    }
  }

  /** A step that leaves the rows of locked batches alone keeps every open summarisation. */
  lemma SumsFrom(s: State, t: State)
    requires Inv(s) && t.sums == s.sums && forall b :: b in s.sums ==> SameRows(s, t, b)
    ensures AllSumsOk(t)
  {
    forall b | b in t.sums ensures SumOk(t, b, t.sums[b]) { SameRowsKeepSum(s, t, b, s.sums[b]); }
  }

  /** A step that does not finish a batch keeps the facts about done batches. */
  lemma DoneFrom(s: State, t: State, b: BatchId)
    requires Inv(s) && Grows(s, t) && b in s.batches && b in t.batches
    requires t.batches[b].done == s.batches[b].done && t.batches[b].raced == s.batches[b].raced
    requires t.batches[b].commits == s.batches[b].commits && t.batches[b].marks == s.batches[b].marks
    requires t.batches[b].lostMarks == s.batches[b].lostMarks && InFlightMark(t, b) == InFlightMark(s, b)
    ensures DoneOk(t, b) && MarksOk(t, b)
  {
    if s.batches[b].done { GrowsKeepsDone(s, t, b); }
  }

  // ---------------------------------------------------------------- preservation

  lemma SumsCaller(s: State, c: CallerOp)
    requires Inv(s) && CallerEnabled(s, c)
    ensures AllSumsOk(ApplyCaller(s, c))
  {
    CallerFrame(s, c);
    SumsFrom(s, ApplyCaller(s, c));
  }

  /** What a caller does to a record that is there, other than by aborting it. */
  lemma CallerRecord(s: State, c: CallerOp, b: BatchId)
    requires Inv(s) && CallerEnabled(s, c) && b in s.batches && !(c.Abort? && c.b == b)
    ensures var t := ApplyCaller(s, c);
      && b in t.batches && t.batches[b].done == s.batches[b].done && t.batches[b].raced == s.batches[b].raced
      && t.batches[b].commits == s.batches[b].commits && t.batches[b].marks == s.batches[b].marks
      && t.batches[b].lostMarks == s.batches[b].lostMarks && InFlightMark(t, b) == InFlightMark(s, b)
  {
    CallerFrame(s, c);
    assert s.batches[b].done <==> Terminal(s.batches[b].status);
  }

  lemma AbortedIsDone(s: State, b: BatchId)
    requires Inv(s) && CallerEnabled(s, Abort(b))
    ensures var t := DoAbort(s, b); DoneOk(t, b) && MarksOk(t, b)
  {
    assert MarksOk(s, b);
    var t := DoAbort(s, b);
    forall r | r in t.rows && t.rows[r].batch == b
      ensures !Pending(t.rows[r].status)
    {
      assert Pending(s.rows[r].status) ==> r in PendingIn(s.rows, b);
    }
  }

  lemma DoneCaller(s: State, c: CallerOp)
    requires Inv(s) && CallerEnabled(s, c) && Grows(s, ApplyCaller(s, c))
    ensures BatchesDone(ApplyCaller(s, c))
  {
    CallerFrame(s, c);
    var t := ApplyCaller(s, c);
    forall b | b in t.batches
      ensures DoneOk(t, b) && MarksOk(t, b)
    {
      if b !in s.batches {
        NewBatch(s, c, b);
      } else if c.Abort? && c.b == b {
        AbortedIsDone(s, b);
      } else {
        CallerRecord(s, c, b);
        DoneFrom(s, t, b);
      }
    }
  }

  lemma NewBatch(s: State, c: CallerOp, b: BatchId)
    requires SumsOk(s) && CallerEnabled(s, c) && b !in s.batches && b in ApplyCaller(s, c).batches
    ensures DoneOk(ApplyCaller(s, c), b) && MarksOk(ApplyCaller(s, c), b)
  {}

  lemma SumsBlock(s: State, i: Instance, op: BlockOp)
    requires Inv(s) && BlockEnabled(s, i, op) && Grows(s, ApplyBlock(s, i, op))
    ensures AllSumsOk(ApplyBlock(s, i, op)) && BatchesDone(ApplyBlock(s, i, op))
  {
    BlockFrame(s, i, op);
    var t := ApplyBlock(s, i, op);
    SumsFrom(s, t);
    forall b | b in t.batches ensures DoneOk(t, b) && MarksOk(t, b) { DoneFrom(s, t, b); }
  }

  /** What the loop does to the rows of a batch. */
  lemma RowsOfBatch(s: State, i: Instance, op: RowOp)
    requires Inv(s) && RowEnabled(s, i, op)
    ensures var t := ApplyRow(s, i, op);
      forall r :: r in s.rows ==>
        && r in t.rows && t.rows[r].batch == s.rows[r].batch
        && (t.rows[r].status == s.rows[r].status || (Terminal(t.rows[r].status) && !RowsLocked(s, s.rows[r].batch)))
  {}

  /** A row that the loop ends is none that an open summarisation of its batch relies on. */
  lemma EndedKeepsSum(s: State, t: State, b: BatchId, x: Sum)
    requires SumOk(s, b, x) && !x.phase.Tallied? && !x.phase.Marked? && t.rows.Keys == s.rows.Keys
    requires forall r :: r in s.rows ==>
               && t.rows[r].batch == s.rows[r].batch
               && (t.rows[r].status == s.rows[r].status || Terminal(t.rows[r].status))
    ensures SumOk(t, b, x)
  {
    forall r | r in t.rows && t.rows[r].batch == b
      ensures SumRowOk(x, r, t.rows[r])
    {
      assert SumRowOk(x, r, s.rows[r]);
    }
  }

  lemma SumsRow(s: State, i: Instance, op: RowOp)
    requires Inv(s) && RowEnabled(s, i, op)
    ensures AllSumsOk(ApplyRow(s, i, op))
  {
    RowFrame(s, i, op);
    RowsOfBatch(s, i, op);
    var t := ApplyRow(s, i, op);
    forall b | b in t.sums
      ensures SumOk(t, b, t.sums[b])
    {
      if RowsLocked(s, b) {
        SameRowsKeepSum(s, t, b, s.sums[b]);
      } else {
        EndedKeepsSum(s, t, b, s.sums[b]);
      }
    }
  }

  /** A worker that marks a batch done has made all its rows terminal. */
  lemma WorkerFinishes(s: State, i: Instance, op: RowOp)
    requires Inv(s) && RowEnabled(s, i, op) && (op.SlowFinish? || op.FailBatch? || op.FailSlowBatch?)
    ensures Loop.AllTerminal(s.rows, CurBatch(s, i))
  {
    assert Loop.LoopOk(s.rows, s.insts[i].worker) && WorkerOk(s, s.insts[i].worker);
  }

  /** The loop's writes to records: none, or the end of the current batch. */
  lemma RowRecords(s: State, i: Instance, op: RowOp)
    requires RowEnabled(s, i, op)
    ensures var t := ApplyRow(s, i, op);
      if op.SlowFinish? || op.FailBatch? || op.FailSlowBatch? then
        var b := CurBatch(s, i);
        && t.rows == s.rows && b in s.batches && b !in s.sums && t.batches - {b} == s.batches - {b} && b in t.batches
        && t.batches[b] == s.batches[b].(status := t.batches[b].status, done := true, counts := t.batches[b].counts)
      else t.batches == s.batches
  {}

  lemma FinishedByWorker(s: State, i: Instance, op: RowOp)
    requires Inv(s) && RowEnabled(s, i, op) && (op.SlowFinish? || op.FailBatch? || op.FailSlowBatch?)
    ensures var t, b := ApplyRow(s, i, op), CurBatch(s, i); b in t.batches && DoneOk(t, b) && MarksOk(t, b)
  {
    RowFrame(s, i, op);
    RowRecords(s, i, op);
    WorkerFinishes(s, i, op);
    assert MarksOk(s, CurBatch(s, i));
  }

  lemma DoneRow(s: State, i: Instance, op: RowOp)
    requires Inv(s) && RowEnabled(s, i, op) && Grows(s, ApplyRow(s, i, op))
    ensures BatchesDone(ApplyRow(s, i, op))
  {
    RowFrame(s, i, op);
    RowRecords(s, i, op);
    var t := ApplyRow(s, i, op);
    forall b | b in t.batches
      ensures DoneOk(t, b) && MarksOk(t, b)
    {
      if (op.SlowFinish? || op.FailBatch? || op.FailSlowBatch?) && b == CurBatch(s, i) {
        FinishedByWorker(s, i, op);
      } else {
        assert t.batches != s.batches ==>
          b in t.batches - {CurBatch(s, i)} && t.batches[b] == (t.batches - {CurBatch(s, i)})[b];
        DoneFrom(s, t, b);
      }
    }
  }

  lemma SumsSum(s: State, b: BatchId, op: SumOp)
    requires Inv(s) && SumEnabled(s, b, op)
    ensures AllSumsOk(ApplySum(s, b, op)) && BatchesDone(ApplySum(s, b, op))
  {
    SumFrame(s, b, op);
    var t := ApplySum(s, b, op);
    forall c | c in t.sums && c != b
      ensures SumOk(t, c, t.sums[c])
    {
      assert c in s.sums - {b} && c in t.sums - {b};
      assert t.sums[c] == (t.sums - {b})[c] == (s.sums - {b})[c];
      SameRowsKeepSum(s, t, c, s.sums[c]);
    }
    SumActing(s, b, op);
    DoneActing(s, b, op);
    forall c | c in t.batches && c != b
      ensures DoneOk(t, c) && MarksOk(t, c)
    {
      assert c in t.sums - {b} <==> c in s.sums - {b};
      assert c in s.sums ==> t.sums[c] == (t.sums - {b})[c] == (s.sums - {b})[c];
      DoneFrom(s, t, c);
    }
  }

  lemma SumActing(s: State, b: BatchId, op: SumOp)
    requires Inv(s) && SumEnabled(s, b, op)
    ensures b in ApplySum(s, b, op).sums ==> SumOk(ApplySum(s, b, op), b, ApplySum(s, b, op).sums[b])
  {
    if op.CountQueued? {
      NoneIn(s.rows, b, Queued);
    } else if op.CountInprog? {
      NoneIn(s.rows, b, Inprog);
    }
  }

  lemma NoneIn(rows: map<RowId, Row>, b: BatchId, st: Status)
    ensures RowsIn(rows, b, st) == {} ==> forall r :: r in rows && rows[r].batch == b ==> rows[r].status != st
  {
    forall r | r in rows && rows[r].batch == b && rows[r].status == st
      ensures r in RowsIn(rows, b, st)
    {}
  }

  lemma DoneActing(s: State, b: BatchId, op: SumOp)
    requires Inv(s) && SumEnabled(s, b, op)
    ensures var t := ApplySum(s, b, op); b in t.batches && DoneOk(t, b) && MarksOk(t, b)
  {
    assert b in s.sums ==> SumOk(s, b, s.sums[b]);
    assert DoneOk(s, b) && MarksOk(s, b);
  }

  lemma ResetKeepsSum(s: State, ids: set<RowId>, b: BatchId)
    requires Inv(s) && ResetEnabled(s, ids) && b in s.sums
    ensures var t := DoReset(s, ids); b in t.sums && SumOk(t, b, t.sums[b])
  {
    var t := DoReset(s, ids);
    if RowsLocked(s, b) || s.sums[b].phase.NoInprog? {
      assert forall r :: r in s.rows && s.rows[r].batch == b ==> SumRowOk(s.sums[b], r, s.rows[r]);
      SameRowsKeepSum(s, t, b, s.sums[b]);
    }
  }

  lemma SumsRec(s: State, op: RecOp)
    requires Inv(s) && RecEnabled(s, op) && Grows(s, ApplyRec(s, op))
    ensures AllSumsOk(ApplyRec(s, op)) && BatchesDone(ApplyRec(s, op))
  {
    var t := ApplyRec(s, op);
    forall b | b in t.sums
      ensures SumOk(t, b, t.sums[b])
    {
      if op.Reset? { ResetKeepsSum(s, s.recs[op.p].ids, b); }
      else if op.Atomic? { ResetKeepsSum(s, s.insts[op.d].tracked, b); }
      else { SameRowsKeepSum(s, t, b, s.sums[b]); }
    }
    forall b | b in t.batches ensures DoneOk(t, b) && MarksOk(t, b) { DoneFrom(s, t, b); }
  }

  lemma StepInv(s: State, step: Step)
    requires Inv(s) && Enabled(s, step)
    ensures Inv(Apply(s, step))
  {
    StepStructure(s, step);
    Loop.StepLoops(s, step);
    match step
    case Caller(c) => SumsCaller(s, c); DoneCaller(s, c);
    case Life(i, life) => SumsLife(s, i, life);
    case Block(i, op) => SumsBlock(s, i, op);
    case InLoop(i, op) => SumsRow(s, i, op); DoneRow(s, i, op);
    case Sweep => SumsFrom(s, Apply(s, step));
    case Summary(b, op) => SumsSum(s, b, op);
    case Recovery(op) => SumsRec(s, op);
  }

  lemma SumsLife(s: State, i: Instance, life: LifeOp)
    requires Inv(s) && LifeEnabled(s, i, life)
    ensures AllSumsOk(ApplyLife(s, i, life)) && BatchesDone(ApplyLife(s, i, life))
  {
    SumsFrom(s, ApplyLife(s, i, life));
  }

  lemma {:induction false} RunInv(s: State, steps: seq<Step>, t: State)
    requires Inv(s) && Run(s, steps, t)
    ensures Inv(t)
    decreases |steps|
  {
    if steps != [] {
      StepInv(s, steps[0]);
      RunInv(Apply(s, steps[0]), steps[1..], t);
    }
  }

  lemma ReachableInv(s: State)
    requires Reachable(s)
    ensures Inv(s)
  {
    var steps :| Run(Initial(s.chunk), steps, s);
    RunInv(Initial(s.chunk), steps, s);
  }

  // ---------------------------------------------------------------- results

  lemma CountPartition(rows: map<RowId, Row>, b: BatchId)
    requires forall r :: r in rows ==> !rows[r].status.Wait?
    ensures var t := TallyOf(rows, b); t.nsuccess + t.nfailed + t.naborted + |PendingIn(rows, b)| == |AllIn(rows, b)|
  {
    var su, fa := RowsIn(rows, b, Success), RowsIn(rows, b, Failed);
    var ab, pe := RowsIn(rows, b, Aborted), PendingIn(rows, b);
    assert su !! fa && |su + fa| == |su| + |fa|;
    assert (su + fa) !! ab && |su + fa + ab| == |su + fa| + |ab|;
    forall r | r in pe ensures r !in su + fa + ab { assert r in rows; }
    assert (su + fa + ab) !! pe && |su + fa + ab + pe| == |su + fa + ab| + |pe|;
    forall r
      ensures r in AllIn(rows, b) <==> r in su + fa + ab + pe
    {}
    assert AllIn(rows, b) == su + fa + ab + pe;
  }

  /**
   The status of a batch, read off its rows: aborted if one is aborted, failed if none is aborted
   and one is failed, success if neither.
   */
  ghost predicate StatusFits(rows: map<RowId, Row>, b: BatchId, st: Status) {
    if exists r :: r in rows && rows[r].batch == b && rows[r].status.Aborted? then st == Aborted
    else if exists r :: r in rows && rows[r].batch == b && rows[r].status.Failed? then st == Failed
    else st == Success
  }

  /** The counters are the numbers of successful, failed and aborted rows. */
  ghost predicate CountersFit(rows: map<RowId, Row>, b: BatchId, t: Tally) {
    && t.nsuccess == |set r | r in rows && rows[r].batch == b && rows[r].status.Success?|
    && t.nfailed == |set r | r in rows && rows[r].batch == b && rows[r].status.Failed?|
    && t.naborted == |set r | r in rows && rows[r].batch == b && rows[r].status.Aborted?|
  }

  /** The record has the counters and the status that its rows ask for. */
  ghost predicate SummaryFits(rows: map<RowId, Row>, b: BatchId, x: Batch) {
    x.counts.Some? && CountersFit(rows, b, x.counts.value) && StatusFits(rows, b, x.status)
  }

  lemma SomeIn(rows: map<RowId, Row>, b: BatchId, st: Status)
    ensures |RowsIn(rows, b, st)| > 0 <==> exists r :: r in rows && rows[r].batch == b && rows[r].status == st
  {
    var ids := RowsIn(rows, b, st);
    if exists r :: r in rows && rows[r].batch == b && rows[r].status == st {
      var r :| r in rows && rows[r].batch == b && rows[r].status == st;
      assert r in ids;
    }
    if ids != {} {
      var r := Pick(ids);
      assert r in rows && rows[r].batch == b && rows[r].status == st;
    }
  }

  lemma TallyFits(rows: map<RowId, Row>, b: BatchId)
    ensures CountersFit(rows, b, TallyOf(rows, b))
  {
    assert RowsIn(rows, b, Success) == set r | r in rows && rows[r].batch == b && rows[r].status.Success?;
    assert RowsIn(rows, b, Failed) == set r | r in rows && rows[r].batch == b && rows[r].status.Failed?;
    assert RowsIn(rows, b, Aborted) == set r | r in rows && rows[r].batch == b && rows[r].status.Aborted?;
  }

  lemma StatusIsFit(rows: map<RowId, Row>, b: BatchId)
    ensures StatusFits(rows, b, DetermineBatchStatus(TallyOf(rows, b)))
  {
    SomeIn(rows, b, Aborted);
    SomeIn(rows, b, Failed);
  }

  /** A record with the tallies of its rows and the status they determine fits the rows. */
  lemma SummaryIsFit(rows: map<RowId, Row>, b: BatchId, x: Batch)
    requires x.counts == Some(TallyOf(rows, b)) && x.status == DetermineBatchStatus(TallyOf(rows, b))
    ensures SummaryFits(rows, b, x)
  {
    TallyFits(rows, b);
    StatusIsFit(rows, b);
  }

  /**
   What a summary says when it commits, in every interleaving: the counters are the tallies of
   the rows, the status is the one they determine, and the counters add up to the number of
   rows except for rows that recovery put back in the queue between the two counts.
   */
  lemma SummaryExactAtCommit(s: State, b: BatchId)
    requires Reachable(s) && Enabled(s, Summary(b, Commit))
    ensures var t := Apply(s, Summary(b, Commit));
      var c := TallyOf(t.rows, b);
      && b in t.batches && t.batches[b].done
      && t.batches[b].counts == Some(c) && t.batches[b].status == DetermineBatchStatus(c)
      && c.nsuccess + c.nfailed + c.naborted + |PendingIn(t.rows, b)| == |AllIn(t.rows, b)|
      && PendingIn(t.rows, b) <= t.batches[b].raced
      && SummaryFits(t.rows, b, t.batches[b])
  {
    ReachableInv(s);
    assert SumOk(s, b, s.sums[b]);
    forall r | r in s.rows ensures !s.rows[r].status.Wait? { assert RowOk(s, r); }
    CountPartition(s.rows, b);
    PendingWithin(s.rows, b, s.sums[b].dirty);
    SummaryIsFit(s.rows, b, Apply(s, Summary(b, Commit)).batches[b]);
  }

  lemma PendingWithin(rows: map<RowId, Row>, b: BatchId, ids: set<RowId>)
    requires forall r :: r in rows && rows[r].batch == b && Pending(rows[r].status) ==> r in ids
    ensures PendingIn(rows, b) <= ids
  {
    forall r | r in PendingIn(rows, b) ensures r in ids { assert r in rows; }
  }

  /** Finished means finished, now and later: only a reset inside its summarisation breaks it. */
  lemma FinishedMeansFinished(s: State, b: BatchId, steps: seq<Step>, t: State)
    requires Reachable(s) && b in s.batches && s.batches[b].done && Run(s, steps, t)
    ensures PendingIn(s.rows, b) <= s.batches[b].raced
    ensures b in t.batches && t.batches[b].done && PendingIn(t.rows, b) <= PendingIn(s.rows, b)
  {
    ReachableInv(s);
    assert DoneOk(s, b);
    PendingWithin(s.rows, b, s.batches[b].raced);
    TerminalForever(s, steps, t);
    RunStructure(s, steps, t);
    assert BatchesOk(s);
  }

  /** At most one committed summarisation of a batch, across workers, retries and sweeps. */
  lemma AtMostOneSummary(s: State, b: BatchId)
    requires Reachable(s) && b in s.batches
    ensures s.batches[b].commits <= 1 && (s.batches[b].commits == 1 ==> s.batches[b].done && b !in s.sums)
    ensures s.batches[b].marks <= 1 + s.batches[b].lostMarks
  {
    ReachableInv(s);
    assert MarksOk(s, b) && BatchesOk(s) && SumsOk(s);
  }

  // ---------------------------------------------------------------- runs without the race

  /** The step resets no row of a batch whose summarisation stands between its two counts. */
  ghost predicate Calm(s: State, step: Step) {
    forall r :: r in ResetIds(s, step) && r in s.rows && s.rows[r].batch in s.sums ==>
      !s.sums[s.rows[r].batch].phase.NoQueued?
  }

  ghost predicate CalmRun(s: State, steps: seq<Step>, t: State)
    decreases |steps|
  {
    if steps == [] then s == t
    else Enabled(s, steps[0]) && Calm(s, steps[0]) && CalmRun(Apply(s, steps[0]), steps[1..], t)
  }

  ghost predicate NoRace(s: State) {
    && (forall b :: b in s.sums ==> s.sums[b].dirty == {})
    && (forall b :: b in s.batches ==> s.batches[b].raced == {})
  }

  lemma CalmReset(s: State, ids: set<RowId>)
    requires NoRace(s) && SumsOk(s)
    requires forall r :: r in Resettable(s, ids) && s.rows[r].batch in s.sums ==>
        !s.sums[s.rows[r].batch].phase.NoQueued?
    ensures NoRace(DoReset(s, ids))
  {
    var t := DoReset(s, ids);
    var hit := Resettable(s, ids);
    forall b | b in t.sums
      ensures t.sums[b].dirty == {}
    {
      if s.sums[b].phase.NoQueued? {
        forall r | r in hit ensures r in s.rows && s.rows[r].batch != b {}
        assert t.sums[b].dirty <= {};
      }
    }
  }

  lemma CalmStep(s: State, step: Step)
    requires Enabled(s, step) && Calm(s, step) && NoRace(s) && SumsOk(s)
    ensures NoRace(Apply(s, step))
  {
    match step
    case Caller(c) => NoRaceCaller(s, c);
    case Life(i, life) => NoRaceLife(s, i, life);
    case Block(i, op) => NoRaceBlock(s, i, op);
    case InLoop(i, op) => NoRaceRow(s, i, op);
    case Summary(b, op) => NoRaceSum(s, b, op);
    case Recovery(op) =>
      if op.Reset? { CalmReset(s, s.recs[op.p].ids); }
      if op.Atomic? { CalmReset(s, s.insts[op.d].tracked); }
    case _ =>
  }

  lemma NoRaceCaller(s: State, c: CallerOp)
    requires NoRace(s) && CallerEnabled(s, c)
    ensures NoRace(ApplyCaller(s, c))
  {}

  lemma NoRaceLife(s: State, i: Instance, life: LifeOp)
    requires NoRace(s) && LifeEnabled(s, i, life)
    ensures NoRace(ApplyLife(s, i, life))
  {}

  lemma NoRaceBlock(s: State, i: Instance, op: BlockOp)
    requires NoRace(s) && BlockEnabled(s, i, op)
    ensures NoRace(ApplyBlock(s, i, op))
  {}

  lemma NoRaceRow(s: State, i: Instance, op: RowOp)
    requires NoRace(s) && RowEnabled(s, i, op)
    ensures NoRace(ApplyRow(s, i, op))
  {}

  lemma NoRaceSum(s: State, b: BatchId, op: SumOp)
    requires NoRace(s) && SumEnabled(s, b, op)
    ensures NoRace(ApplySum(s, b, op))
  {}

  lemma {:induction false} CalmRunNoRace(s: State, steps: seq<Step>, t: State)
    requires CalmRun(s, steps, t) && NoRace(s) && Inv(s)
    ensures NoRace(t) && Inv(t)
    decreases |steps|
  {
    if steps != [] {
      CalmStep(s, steps[0]);
      StepInv(s, steps[0]);
      CalmRunNoRace(Apply(s, steps[0]), steps[1..], t);
    }
  }

  /** Without the race, doneat set means that no row of the batch is queued or inprog. */
  lemma CalmFinished(chunk: nat, steps: seq<Step>, s: State, b: BatchId)
    requires CalmRun(Initial(chunk), steps, s) && b in s.batches && s.batches[b].done
    ensures PendingIn(s.rows, b) == {}
  {
    CalmRunNoRace(Initial(chunk), steps, s);
    assert DoneOk(s, b);
    PendingWithin(s.rows, b, s.batches[b].raced);
  }
}
