/** Clean runs: how a committed summary and the rows of its batch agree, then and later. */
module BatchFinality {
  import opened BatchProtocol
  import opened BatchStructure
  import opened BatchClean
  import opened BatchOwnership
  import Cl = BatchClean

  function TallySum(c: Option<Tally>): nat {
    if c.Some? then c.value.nsuccess + c.value.nfailed + c.value.naborted else 0
  }

  /** The summary on record is the summary of the rows as they are. */
  ghost predicate Final(s: State, b: BatchId)
    requires b in s.batches
  {
    s.batches[b].counts == Some(TallyOf(s.rows, b)) && s.batches[b].status == DetermineBatchStatus(TallyOf(s.rows, b))
  }

  /** A committed summary misses exactly the raced rows, and is final as long as none of them has finished. */
  ghost predicate SummaryOk(s: State, b: BatchId)
    requires b in s.batches
  {
    s.batches[b].commits == 1 ==>
      && s.batches[b].counts.Some? && TallySum(s.batches[b].counts) + |s.batches[b].raced| == |AllIn(s.rows, b)|
      && (Ordinary(s, b) && PendingIn(s.rows, b) == s.batches[b].raced ==> Final(s, b))
  }

  ghost predicate Inv(s: State) {
    Cl.Inv(s) && forall b :: b in s.batches ==> SummaryOk(s, b)
  }

  // ---------------------------------------------------------------- what a step keeps

  ghost predicate TerminalKept(s: State, t: State) {
    forall r :: r in s.rows && Terminal(s.rows[r].status) ==> r in t.rows && t.rows[r].status == s.rows[r].status
  }

  /** The record of a summarised batch is left alone, but for the status of a slow query. */
  ghost predicate RecordKept(s: State, t: State, b: BatchId) {
    b in s.batches && b in t.batches && s.batches[b].commits == t.batches[b].commits &&
    (s.batches[b].commits == 1 ==>
       && t.batches[b].counts == s.batches[b].counts && t.batches[b].raced == s.batches[b].raced
       && (Ordinary(s, b) ==> t.batches[b].status == s.batches[b].status))
  }

  lemma SameTally(s: State, t: State, b: BatchId)
    requires TerminalKept(s, t) && Grows(s, t) && AllIn(t.rows, b) == AllIn(s.rows, b)
    requires PendingIn(t.rows, b) == PendingIn(s.rows, b)
    requires forall r :: r in s.rows ==> !s.rows[r].status.Wait?
    requires forall r :: r in t.rows ==> !t.rows[r].status.Wait?
    ensures TallyOf(t.rows, b) == TallyOf(s.rows, b)
  {
    SameIn(s, t, b, Success);
    SameIn(s, t, b, Failed);
    SameIn(s, t, b, Aborted);
  }

  lemma SameIn(s: State, t: State, b: BatchId, st: Status)
    requires TerminalKept(s, t) && Grows(s, t) && AllIn(t.rows, b) == AllIn(s.rows, b) && Terminal(st)
    requires PendingIn(t.rows, b) == PendingIn(s.rows, b)
    requires forall r :: r in s.rows ==> !s.rows[r].status.Wait?
    requires forall r :: r in t.rows ==> !t.rows[r].status.Wait?
    ensures RowsIn(t.rows, b, st) == RowsIn(s.rows, b, st)
  {
    forall r
      ensures r in RowsIn(t.rows, b, st) <==> r in RowsIn(s.rows, b, st)
    {
      assert r in AllIn(t.rows, b) <==> r in AllIn(s.rows, b);
      assert r in PendingIn(t.rows, b) <==> r in PendingIn(s.rows, b);
    }
  }

  lemma NoneWaits(s: State)
    requires Structure(s)
    ensures forall r :: r in s.rows ==> !s.rows[r].status.Wait?
  {
    forall r | r in s.rows ensures !s.rows[r].status.Wait? { assert RowOk(s, r); }
  }

  /** A finished batch gains no rows, and no row of it becomes pending again. */
  lemma FinishedRows(s: State, t: State, b: BatchId)
    requires Structure(s) && Grows(s, t) && b in s.batches && s.batches[b].done
    ensures AllIn(t.rows, b) == AllIn(s.rows, b) && PendingIn(t.rows, b) <= PendingIn(s.rows, b)
  {
    forall r
      ensures r in AllIn(t.rows, b) <==> r in AllIn(s.rows, b)
      ensures r in PendingIn(t.rows, b) ==> r in PendingIn(s.rows, b)
    {
      assert r in s.rows ==> RowOk(s, r);
    }
  }

  lemma RacedHolds(s: State, b: BatchId)
    requires Cl.Inv(s) && b in s.batches && s.batches[b].commits == 1
    ensures s.batches[b].done && PendingIn(s.rows, b) <= s.batches[b].raced
  {
    assert Summ.MarksOk(s, b) && Summ.DoneOk(s, b);
    Summ.PendingWithin(s.rows, b, s.batches[b].raced);
  }

  lemma SummaryKept(s: State, t: State, b: BatchId)
    requires Inv(s) && Structure(t) && Grows(s, t) && TerminalKept(s, t) && RecordKept(s, t, b)
    ensures SummaryOk(t, b)
  {
    if s.batches[b].commits == 1 {
      assert SummaryOk(s, b);
      RacedHolds(s, b);
      FinishedRows(s, t, b);
      if Ordinary(t, b) && PendingIn(t.rows, b) == t.batches[b].raced {
        OrdinaryBefore(s, t, b);
        NoneWaits(s);
        NoneWaits(t);
        SameTally(s, t, b);
      }
    }
  }

  lemma OrdinaryBefore(s: State, t: State, b: BatchId)
    requires Grows(s, t) && Ordinary(t, b)
    ensures Ordinary(s, b)
  {}

  /** Records on file are kept, and a new batch has no summary. */
  ghost predicate RecordsKeptFrom(s: State, t: State) {
    forall b :: b in t.batches ==> if b in s.batches then RecordKept(s, t, b) else t.batches[b].commits == 0
  }

  // ---------------------------------------------------------------- steps

  lemma KeptCaller(s: State, c: CallerOp)
    requires Cl.Inv(s) && CallerEnabled(s, c) && !c.Abort?
    ensures var t := ApplyCaller(s, c);
      TerminalKept(s, t) && RecordsKeptFrom(s, t)
  {
    var t := ApplyCaller(s, c);
    OldRowsKept(s, c);
    forall b | b in t.batches
      ensures if b in s.batches then RecordKept(s, t, b) else t.batches[b].commits == 0
    {
      if b in s.batches && s.batches[b].commits == 1 { RacedHolds(s, b); }
      assert b in s.batches ==> Summ.MarksOk(s, b);
    }
  }

  lemma KeptLife(s: State, i: Instance, life: LifeOp)
    requires LifeEnabled(s, i, life)
    ensures var t := ApplyLife(s, i, life);
      TerminalKept(s, t) && RecordsKeptFrom(s, t)
  {}

  lemma KeptBlock(s: State, i: Instance, op: BlockOp)
    requires Cl.Inv(s) && BlockEnabled(s, i, op)
    ensures var t := ApplyBlock(s, i, op);
      TerminalKept(s, t) && RecordsKeptFrom(s, t)
  {
    var t := ApplyBlock(s, i, op);
    forall b | b in t.batches
      ensures RecordKept(s, t, b)
    {
      if s.batches[b].commits == 1 { RacedHolds(s, b); }
    }
  }

  lemma KeptRow(s: State, i: Instance, op: RowOp)
    requires Cl.Inv(s) && RowEnabled(s, i, op) && !op.Refuse?
    ensures var t := ApplyRow(s, i, op);
      TerminalKept(s, t) && RecordsKeptFrom(s, t)
  {
    WritesOnlyOwn(s, i, op);
    RecordsKept(s, i, op);
    assert Owned(s, i, s.insts[i].worker);
  }

  lemma KeptRec(s: State, d: Instance)
    requires Cl.Inv(s) && RecEnabled(s, Atomic(d))
    ensures var t := ApplyRec(s, Atomic(d));
      TerminalKept(s, t) && RecordsKeptFrom(s, t)
  {}

  lemma KeptSum(s: State, b: BatchId, op: SumOp, c: BatchId)
    requires Cl.Inv(s) && SumEnabled(s, b, op) && c in s.batches && (c != b || !op.Commit?)
    ensures RecordKept(s, ApplySum(s, b, op), c)
  {
    SumFrame(s, b, op);
  }

  /** What is pending when a summary commits is what was reset since its queued count. */
  lemma PendingAtCommit(s: State, b: BatchId)
    requires Cl.Inv(s) && SumEnabled(s, b, Commit)
    ensures PendingIn(s.rows, b) == s.sums[b].dirty && s.sums[b].tally == TallyOf(s.rows, b)
  {
    assert Summ.SumOk(s, b, s.sums[b]);
    Summ.PendingWithin(s.rows, b, s.sums[b].dirty);
    forall r | r in s.sums[b].dirty ensures r in PendingIn(s.rows, b) {}
  }

  /** The commit itself. */
  lemma CommitOk(s: State, b: BatchId)
    requires Cl.Inv(s) && SumEnabled(s, b, Commit)
    ensures b in ApplySum(s, b, Commit).batches && SummaryOk(ApplySum(s, b, Commit), b)
    ensures PendingIn(s.rows, b) == ApplySum(s, b, Commit).batches[b].raced
    ensures ApplySum(s, b, Commit).batches[b].commits == 1
  {
    PendingAtCommit(s, b);
    NoneWaits(s);
    Summ.CountPartition(s.rows, b);
    assert Summ.MarksOk(s, b) && Summ.DoneOk(s, b);
    var t := ApplySum(s, b, Commit);
    assert t.rows == s.rows && t.batches[b].counts == Some(s.sums[b].tally) && t.batches[b].raced == s.sums[b].dirty;
  }

  lemma SummaryStep(s: State, b: BatchId, op: SumOp)
    requires Inv(s) && SumEnabled(s, b, op)
    requires Structure(ApplySum(s, b, op)) && Grows(s, ApplySum(s, b, op))
    ensures var t := ApplySum(s, b, op); forall c :: c in t.batches ==> SummaryOk(t, c)
  {
    SumFrame(s, b, op);
    var t := ApplySum(s, b, op);
    forall c | c in t.batches
      ensures SummaryOk(t, c)
    {
      if c == b && op.Commit? {
        CommitOk(s, b);
      } else {
        KeptSum(s, b, op, c);
        SummaryKept(s, t, c);
      }
    }
  }

  lemma SummariesKept(s: State, t: State)
    requires Inv(s) && Structure(t) && Grows(s, t) && TerminalKept(s, t)
    requires RecordsKeptFrom(s, t)
    ensures forall b :: b in t.batches ==> SummaryOk(t, b)
  {
    forall b | b in t.batches
      ensures SummaryOk(t, b)
    {
      if b in s.batches { SummaryKept(s, t, b); }
    }
  }

  /** A clean step keeps finished rows, and what is on record of a summarised batch. */
  lemma StepKeeps(s: State, step: Step)
    requires Cl.Inv(s) && Enabled(s, step) && Clean(step) && !step.Summary?
    ensures var t := Apply(s, step);
      TerminalKept(s, t) && RecordsKeptFrom(s, t)
  {
    match step
    case Caller(c) => KeptCaller(s, c);
    case Block(i, op) => KeptBlock(s, i, op);
    case InLoop(i, op) => KeptRow(s, i, op);
    case Life(i, life) => KeptLife(s, i, life);
    case Recovery(op) => KeptRec(s, op.d);
    case Sweep => assert RecordsKeptFrom(s, s);
  }

  lemma StepSummaries(s: State, step: Step)
    requires Inv(s) && Enabled(s, step) && Clean(step)
    ensures var t := Apply(s, step); forall b :: b in t.batches ==> SummaryOk(t, b)
  {
    StepStructure(s, step);
    if step.Summary? {
      SummaryStep(s, step.b, step.sum);
    } else {
      StepKeeps(s, step);
      SummariesKept(s, Apply(s, step));
    }
  }

  lemma StepInv(s: State, step: Step)
    requires Inv(s) && Enabled(s, step) && Clean(step)
    ensures Inv(Apply(s, step))
  {
    Cl.StepInv(s, step);
    StepSummaries(s, step);
  }

  lemma {:induction false} RunInv(s: State, steps: seq<Step>, t: State)
    requires Inv(s) && Run(s, steps, t) && AllClean(steps)
    ensures Inv(t)
    decreases |steps|
  {
    if steps != [] {
      assert Clean(steps[0]);
      StepInv(s, steps[0]);
      assert AllClean(steps[1..]);
      RunInv(Apply(s, steps[0]), steps[1..], t);
    }
  }

  lemma ReachableInv(s: State)
    requires CleanReachable(s)
    ensures Inv(s)
  {
    var steps :| Run(Initial(s.chunk), steps, s) && AllClean(steps);
    RunInv(Initial(s.chunk), steps, s);
  }

  // ---------------------------------------------------------------- results

  /**
   When a summary commits, the rows of the batch that are still pending are exactly those that
   recovery reset between its two counts: the race is the only flaw, and it always shows.
   */
  lemma PendingIsExactlyTheRace(s: State, b: BatchId)
    requires CleanReachable(s) && Enabled(s, Summary(b, Commit))
    ensures var t := Apply(s, Summary(b, Commit));
      && b in t.batches && PendingIn(t.rows, b) == t.batches[b].raced
      && (TallySum(t.batches[b].counts) == |AllIn(t.rows, b)| <==> t.batches[b].raced == {})
  {
    ReachableInv(s);
    CommitOk(s, b);
    assert Summ.MarksOk(s, b);
  }

  /**
   What becomes of a summary, in every later state: its counters add up to the number of rows
   exactly when nothing was raced, and for an ordinary batch they are the tallies of its rows
   exactly as long as no raced row has finished.
   */
  lemma SummaryAgreesIff(s: State, b: BatchId)
    requires CleanReachable(s) && b in s.batches && s.batches[b].commits == 1
    ensures TallySum(s.batches[b].counts) == |AllIn(s.rows, b)| <==> s.batches[b].raced == {}
    ensures Ordinary(s, b) ==>
      (s.batches[b].counts == Some(TallyOf(s.rows, b)) <==> PendingIn(s.rows, b) == s.batches[b].raced)
  {
    ReachableInv(s);
    assert SummaryOk(s, b);
    RacedHolds(s, b);
    NoneWaits(s);
    Summ.CountPartition(s.rows, b);
    if s.batches[b].counts == Some(TallyOf(s.rows, b)) {
      SubsetOfSameSize(PendingIn(s.rows, b), s.batches[b].raced);
    }
  }

  lemma SubsetOfSameSize(a: set<RowId>, b: set<RowId>)
    requires a <= b && |a| == |b|
    ensures a == b
  {
    assert b == a + (b - a);
  }

  /** Once a raced row has finished, the counters never are the tallies of the rows again. */
  lemma NeverAgreesAgain(s: State, b: BatchId, steps: seq<Step>, t: State)
    requires CleanReachable(s) && b in s.batches && s.batches[b].commits == 1
    requires PendingIn(s.rows, b) != s.batches[b].raced
    requires Run(s, steps, t) && AllClean(steps)
    ensures b in t.batches && (Ordinary(t, b) ==> t.batches[b].counts != Some(TallyOf(t.rows, b)))
  {
    ReachableInv(s);
    RacedHolds(s, b);
    RunKeepsRace(s, b, steps, t);
    assert SummaryOk(t, b);
    RacedHolds(t, b);
    NoneWaits(t);
    Summ.CountPartition(t.rows, b);
    if t.batches[b].counts == Some(TallyOf(t.rows, b)) {
      SubsetOfSameSize(PendingIn(t.rows, b), t.batches[b].raced);
    }
  }

  lemma {:induction false} RunKeepsRace(s: State, b: BatchId, steps: seq<Step>, t: State)
    requires Inv(s) && Run(s, steps, t) && AllClean(steps)
    requires b in s.batches && s.batches[b].commits == 1 && PendingIn(s.rows, b) < s.batches[b].raced
    ensures Inv(t) && b in t.batches && t.batches[b].commits == 1 && PendingIn(t.rows, b) < t.batches[b].raced
    decreases |steps|
  {
    if steps != [] {
      var u := Apply(s, steps[0]);
      assert Clean(steps[0]);
      StepKeepsRace(s, b, steps[0]);
      StepInv(s, steps[0]);
      assert AllClean(steps[1..]);
      RunKeepsRace(u, b, steps[1..], t);
    }
  }

  lemma StepKeepsRace(s: State, b: BatchId, step: Step)
    requires Inv(s) && Enabled(s, step) && Clean(step) && b in s.batches && s.batches[b].commits == 1
    ensures var t := Apply(s, step);
      && b in t.batches && t.batches[b].commits == 1 && t.batches[b].raced == s.batches[b].raced
      && PendingIn(t.rows, b) <= PendingIn(s.rows, b)
  {
    StepStructure(s, step);
    RacedHolds(s, b);
    FinishedRows(s, Apply(s, step), b);
    RaceKept(s, b, step);
  }

  lemma RaceKept(s: State, b: BatchId, step: Step)
    requires Inv(s) && Enabled(s, step) && Clean(step) && b in s.batches && s.batches[b].commits == 1
    ensures var t := Apply(s, step);
      b in t.batches && t.batches[b].commits == 1 && t.batches[b].raced == s.batches[b].raced
  {
    if step.Summary? {
      CommitsOnce(s, step.b, step.sum, b);
      KeptSum(s, step.b, step.sum, b);
    } else {
      StepKeeps(s, step);
      StepStructure(s, step);
    }
  }

  lemma CommitsOnce(s: State, c: BatchId, op: SumOp, b: BatchId)
    requires Inv(s) && SumEnabled(s, c, op) && b in s.batches && s.batches[b].commits == 1
    ensures c != b || !op.Commit?
  {
    RacedHolds(s, b);
  }

  /**
   Summary finality: once the summary of an ordinary batch has committed without the race, in
   every later state its counters are the tallies of its rows and add up to their number, and
   its status is the one the tallies determine.
   */
  lemma SummaryFinality(s: State, b: BatchId)
    requires CleanReachable(s) && b in s.batches && s.batches[b].commits == 1 && s.batches[b].raced == {}
    requires Ordinary(s, b)
    ensures s.batches[b].counts == Some(TallyOf(s.rows, b))
    ensures s.batches[b].status == DetermineBatchStatus(TallyOf(s.rows, b))
    ensures Summ.SummaryFits(s.rows, b, s.batches[b])
    ensures TallySum(s.batches[b].counts) == |AllIn(s.rows, b)| && PendingIn(s.rows, b) == {}
  {
    ReachableInv(s);
    assert SummaryOk(s, b);
    RacedHolds(s, b);
    Summ.SummaryIsFit(s.rows, b, s.batches[b]);
  }
}
