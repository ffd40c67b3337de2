/**
 The iteration of jobs_manager.dfy is a run of the protocol of jobs_protocol.dfy: for every
 block and every mix of outcomes the steps claim, track, call, return, untrack, handle errors
 and end the block lead to the tables that RunOneIteration leaves.  What is proved about every run
 therefore holds of the loop.
 */
module BatchRefinement {
  import opened BatchProtocol
  import opened BatchStructure
  import opened Collections
  import M = JobManagers
  import Ex = BatchExamples

  // ---------------------------------------------------------------- the tables without history

  function RowsView(rows: map<RowId, Row>): M.Rows {
    map r | r in rows :: M.DbRow(rows[r].batch, rows[r].line, rows[r].status)
  }

  function BatchView(x: Batch): M.DbBatch {
    M.DbBatch(x.status, x.done, x.counts)
  }

  function BatchesView(batches: map<BatchId, Batch>): M.Batches {
    map b | b in batches :: BatchView(batches[b])
  }

  /** What the iteration for a row leaves alone. */
  predicate Frame(s: State, t: State, i: Instance) {
    && i in s.insts && i in t.insts && t.insts - {i} == s.insts - {i}
    && t.sums == s.sums && t.recs == s.recs && t.candidates == s.candidates && t.chunk == s.chunk
  }

  predicate Views(t: State, rows: M.Rows, batches: M.Batches) {
    RowsView(t.rows) == rows && BatchesView(t.batches) == batches
  }

  /** Worker i can take row r next, and nothing it needs is locked. */
  predicate Turn(s: State, i: Instance, r: RowId) {
    && i in s.insts && s.insts[i].worker.Looping? && s.insts[i].worker.at.Between? && r in s.insts[i].worker.left
    && r in s.rows && BatchFree(s, s.rows[r].batch)
  }

  /** Worker i is inside row r. */
  predicate Inside(s: State, i: Instance, r: RowId) {
    InRow(s, i) && CurRow(s, i) == r && BatchFree(s, CurBatch(s, i))
  }

  ghost predicate Leads(s: State, t: State) {
    exists steps :: Run(s, steps, t)
  }

  lemma LeadsByStep(s: State, step: Step)
    requires Enabled(s, step)
    ensures Leads(s, Apply(s, step))
  {
    Ex.RunSnoc(s, [], s, step);
  }

  lemma LeadsOn(s: State, t: State, u: State)
    requires Leads(s, t) && Leads(t, u)
    ensures Leads(s, u)
  {
    var a :| Run(s, a, t);
    var b :| Run(t, b, u);
    Ex.RunConcat(s, a, t, b, u);
  }

  // ---------------------------------------------------------------- one step at a time

  /** A configuration error: the processor is not called and nothing is written. */
  lemma RefuseStep(s: State, i: Instance, r: RowId, scope: Scope) returns (t: State)
    requires Turn(s, i, r)
    ensures Leads(s, t)
    ensures Frame(s, t, i) && Inside(t, i, r) && t.insts[i].tracked == s.insts[i].tracked
    ensures t.insts[i].worker == s.insts[i].worker.(at := AtRow(r, Untracking(ConfigErr(scope))))
    ensures t.rows == s.rows && t.batches == s.batches
  {
    t := Apply(s, InLoop(i, Refuse(r, scope)));
    LeadsByStep(s, InLoop(i, Refuse(r, scope)));
  }

  /** The processor is called: the tables do not change. */
  lemma CallStep(s: State, i: Instance, r: RowId) returns (t: State)
    requires Turn(s, i, r)
    ensures Leads(s, t)
    ensures Frame(s, t, i) && Inside(t, i, r) && t.insts[i].tracked == s.insts[i].tracked
    ensures t.insts[i].worker == s.insts[i].worker.(at := AtRow(r, Running))
    ensures Views(t, RowsView(s.rows), BatchesView(s.batches))
    ensures t.batches == s.batches && t.rows[r].line == s.rows[r].line && t.rows[r].batch == s.rows[r].batch
  {
    t := Apply(s, InLoop(i, Call(r)));
    LeadsByStep(s, InLoop(i, Call(r)));
  }

  /** The processor returns or panics. */
  lemma ReturnStep(s: State, i: Instance, r: RowId, o: Outcome) returns (t: State)
    requires Inside(s, i, r) && CurPc(s, i).Running? && !o.Config? && (o.Result? ==> Terminal(o.st))
    ensures Leads(s, t)
    ensures Frame(s, t, i) && Inside(t, i, r) && t.insts[i].tracked == s.insts[i].tracked
    ensures t.insts[i].worker == s.insts[i].worker.(at := AtRow(r, CurPc(t, i)))
    ensures CurPc(t, i) ==
      if o.Panic? then Untracking(PanicErr) else if s.rows[r].line == 0 then SlowWritten(o.st) else Untracking(NoErr)
    ensures r in RowsView(s.rows) &&
      Views(t, if o.Result? then M.SetStatus(RowsView(s.rows), r, o.st) else RowsView(s.rows), BatchesView(s.batches))
    ensures t.batches == s.batches && t.rows[r].line == s.rows[r].line && t.rows[r].batch == s.rows[r].batch
  {
    t := Apply(s, InLoop(i, Return(o)));
    LeadsByStep(s, InLoop(i, Return(o)));
  }

  /** What ProcessRow does, in one step or in two. */
  lemma ProcessStep(s: State, i: Instance, r: RowId, o: Outcome) returns (t: State)
    requires Turn(s, i, r) && (o.Result? ==> Terminal(o.st))
    ensures Leads(s, t)
    ensures Frame(s, t, i) && Inside(t, i, r) && t.insts[i].tracked == s.insts[i].tracked
    ensures t.insts[i].worker == s.insts[i].worker.(at := AtRow(r, CurPc(t, i)))
    ensures CurPc(t, i) == match o
      case Config(scope) => Untracking(ConfigErr(scope))
      case Panic => Untracking(PanicErr)
      case Result(st) => if s.rows[r].line == 0 then SlowWritten(st) else Untracking(NoErr)
    ensures r in RowsView(s.rows) &&
      Views(t, if o.Result? then M.SetStatus(RowsView(s.rows), r, o.st) else RowsView(s.rows), BatchesView(s.batches))
    ensures t.batches == s.batches && t.rows[r].line == s.rows[r].line && t.rows[r].batch == s.rows[r].batch
  {
    if o.Config? {
      t := RefuseStep(s, i, r, o.scope);
    } else {
      var running := CallStep(s, i, r);
      t := ReturnStep(running, i, r, o);
      LeadsOn(s, running, t);
    }
  }

  lemma SlowFinishStep(s: State, i: Instance, r: RowId) returns (t: State)
    requires Inside(s, i, r) && CurPc(s, i).SlowWritten?
    ensures Leads(s, t)
    ensures Frame(s, t, i) && Inside(t, i, r) && t.insts[i].tracked == s.insts[i].tracked
    ensures t.insts[i].worker == s.insts[i].worker.(at := AtRow(r, Untracking(NoErr)))
    ensures var b := s.rows[r].batch;
      Views(t, RowsView(s.rows),
        BatchesView(s.batches)[b := BatchView(s.batches[b]).(status := CurPc(s, i).st, done := true)])
  {
    t := Apply(s, InLoop(i, SlowFinish));
    LeadsByStep(s, InLoop(i, SlowFinish));
  }

  lemma UntrackStep(s: State, i: Instance, r: RowId) returns (t: State)
    requires Inside(s, i, r) && CurPc(s, i).Untracking?
    ensures Leads(s, t)
    ensures Frame(s, t, i) && t.insts[i].tracked == s.insts[i].tracked - {r}
    ensures t.insts[i].worker == AfterUntrack(s.insts[i].worker, s.rows[r].batch)
    ensures t.rows == s.rows && t.batches == s.batches
  {
    t := Apply(s, InLoop(i, Untrack));
    LeadsByStep(s, InLoop(i, Untrack));
  }

  lemma FailRowStep(s: State, i: Instance, r: RowId) returns (t: State)
    requires Inside(s, i, r) && CurPc(s, i).RowFailing?
    ensures Leads(s, t)
    ensures Frame(s, t, i) && t.insts[i].tracked == s.insts[i].tracked
    ensures t.insts[i].worker == AfterFailRow(s.insts[i].worker, s.rows[r].line)
    ensures r in RowsView(s.rows) && Views(t, M.SetStatus(RowsView(s.rows), r, Failed), BatchesView(s.batches))
    ensures t.batches == s.batches && r in t.rows && t.rows[r].line == s.rows[r].line
    ensures t.rows[r].batch == s.rows[r].batch
  {
    t := Apply(s, InLoop(i, FailRow));
    LeadsByStep(s, InLoop(i, FailRow));
  }

  lemma BulkFailStep(s: State, i: Instance, r: RowId) returns (t: State)
    requires Inside(s, i, r) && CurPc(s, i).BulkFailing?
    ensures Leads(s, t)
    ensures Frame(s, t, i) && Inside(t, i, r) && t.insts[i].tracked == s.insts[i].tracked
    ensures t.insts[i].worker == s.insts[i].worker.(at := AtRow(r, RowFailing(true)),
              keys := s.insts[i].worker.keys + {(s.rows[r].batch, CurPc(s, i).scope)})
    ensures Views(t, M.BulkFailed(RowsView(s.rows), s.rows[r].batch), BatchesView(s.batches))
    ensures t.batches == s.batches && t.rows[r].line == s.rows[r].line && t.rows[r].batch == s.rows[r].batch
  {
    t := Apply(s, InLoop(i, BulkFail));
    LeadsByStep(s, InLoop(i, BulkFail));
  }

  lemma FailBatchStep(s: State, i: Instance, r: RowId) returns (t: State)
    requires Inside(s, i, r) && CurPc(s, i).BatchFailing?
    ensures Leads(s, t)
    ensures Frame(s, t, i) && t.insts[i].tracked == s.insts[i].tracked && t.insts[i].worker == EndRow(s.insts[i].worker)
    ensures Views(t, RowsView(s.rows), BatchesView(s.batches)[s.rows[r].batch := M.DbBatch(Failed, true, None)])
  {
    t := Apply(s, InLoop(i, FailBatch));
    LeadsByStep(s, InLoop(i, FailBatch));
  }

  lemma FailSlowStep(s: State, i: Instance, r: RowId) returns (t: State)
    requires Inside(s, i, r) && CurPc(s, i).SlowFailing?
    ensures Leads(s, t)
    ensures Frame(s, t, i) && t.insts[i].tracked == s.insts[i].tracked && t.insts[i].worker == EndRow(s.insts[i].worker)
    ensures var b := s.rows[r].batch;
      Views(t, RowsView(s.rows), BatchesView(s.batches)[b := BatchView(s.batches[b]).(status := Failed, done := true)])
  {
    t := Apply(s, InLoop(i, FailSlowBatch));
    LeadsByStep(s, InLoop(i, FailSlowBatch));
  }

  // ---------------------------------------------------------------- the iteration for one row

  function ErrorKey(b: BatchId, o: Outcome): set<(BatchId, Scope)> {
    if o.Config? then {(b, o.scope)} else {}
  }

  /** From s the iteration for row r has led to t, with the tables of Iterated. */
  predicate Iterates(s: State, t: State, i: Instance, r: RowId, o: Outcome)
    requires Turn(s, i, r)
  {
    var w, b := s.insts[i].worker, s.rows[r].batch;
    && Frame(s, t, i) && t.insts[i].tracked == s.insts[i].tracked - {r}
    && t.insts[i].worker == Looping(w.block, w.left - {r}, Between, w.keys + ErrorKey(b, o))
    && (RowsView(t.rows), BatchesView(t.batches)) ==
         M.Iterated(RowsView(s.rows), BatchesView(s.batches), M.HasKey(w.keys, b, o), r, o)
  }

  lemma ResultRuns(s: State, i: Instance, r: RowId, o: Outcome) returns (t: State)
    requires Turn(s, i, r) && o.Result? && Terminal(o.st) && s.rows[r].line != 0
    ensures Leads(s, t) && Iterates(s, t, i, r, o)
  {
    var p := ProcessStep(s, i, r, o);
    t := UntrackStep(p, i, r);
    LeadsOn(s, p, t);
  }

  lemma SlowResultRuns(s: State, i: Instance, r: RowId, o: Outcome) returns (t: State)
    requires Turn(s, i, r) && o.Result? && Terminal(o.st) && s.rows[r].line == 0
    ensures Leads(s, t) && Iterates(s, t, i, r, o)
  {
    var p := ProcessStep(s, i, r, o);
    var q := SlowFinishStep(p, i, r);
    LeadsOn(s, p, q);
    t := UntrackStep(q, i, r);
    LeadsOn(s, q, t);
  }

  /** An error is returned: the row is untracked and nothing has been written. */
  lemma ErrorRuns(s: State, i: Instance, r: RowId, o: Outcome) returns (t: State)
    requires Turn(s, i, r) && !o.Result?
    ensures Leads(s, t) && Frame(s, t, i) && t.insts[i].tracked == s.insts[i].tracked - {r}
    ensures var err := if o.Config? then ConfigErr(o.scope) else PanicErr;
      t.insts[i].worker == AfterUntrack(s.insts[i].worker.(at := AtRow(r, Untracking(err))), s.rows[r].batch)
    ensures Views(t, RowsView(s.rows), BatchesView(s.batches))
    ensures r in t.rows && t.rows[r].line == s.rows[r].line && t.rows[r].batch == s.rows[r].batch
    ensures BatchFree(t, s.rows[r].batch)
  {
    var p := ProcessStep(s, i, r, o);
    t := UntrackStep(p, i, r);
    LeadsOn(s, p, t);
    assert r in RowsView(t.rows) && r in RowsView(s.rows);
  }

  lemma PanicRuns(s: State, i: Instance, r: RowId) returns (t: State)
    requires Turn(s, i, r) && s.rows[r].line != 0
    ensures Leads(s, t) && Iterates(s, t, i, r, Panic)
  {
    var q := ErrorRuns(s, i, r, Panic);
    t := FailRowStep(q, i, r);
    LeadsOn(s, q, t);
  }

  lemma SlowPanicRuns(s: State, i: Instance, r: RowId) returns (t: State)
    requires Turn(s, i, r) && s.rows[r].line == 0
    ensures Leads(s, t) && Iterates(s, t, i, r, Panic)
  {
    var q := ErrorRuns(s, i, r, Panic);
    var u := FailRowStep(q, i, r);
    LeadsOn(s, q, u);
    t := FailSlowStep(u, i, r);
    LeadsOn(s, u, t);
  }

  lemma ConfigRuns(s: State, i: Instance, r: RowId, o: Outcome) returns (t: State)
    requires Turn(s, i, r) && o.Config? && !M.HasKey(s.insts[i].worker.keys, s.rows[r].batch, o)
    ensures Leads(s, t) && Iterates(s, t, i, r, o)
  {
    var q := ErrorRuns(s, i, r, o);
    var u := BulkFailStep(q, i, r);
    LeadsOn(s, q, u);
    var v := FailRowStep(u, i, r);
    LeadsOn(s, u, v);
    t := FailBatchStep(v, i, r);
    LeadsOn(s, v, t);
  }

  lemma RowRuns(s: State, i: Instance, r: RowId, o: Outcome) returns (t: State)
    requires Turn(s, i, r) && (o.Result? ==> Terminal(o.st))
    ensures Leads(s, t) && Iterates(s, t, i, r, o)
  {
    match o
    case Result(_) =>
      if s.rows[r].line == 0 {
        t := SlowResultRuns(s, i, r, o);
      } else {
        t := ResultRuns(s, i, r, o);
      }
    case Panic =>
      if s.rows[r].line == 0 {
        t := SlowPanicRuns(s, i, r);
      } else {
        t := PanicRuns(s, i, r);
      }
    case Config(_) =>
      if M.HasKey(s.insts[i].worker.keys, s.rows[r].batch, o) {
        t := ErrorRuns(s, i, r, o);
      } else {
        t := ConfigRuns(s, i, r, o);
      }
  }

  // ---------------------------------------------------------------- the block

  /** The block can be claimed by worker i, which is idle. */
  ghost predicate CanClaim(s: State, i: Instance, block: seq<RowId>, outcomes: map<RowId, Outcome>) {
    && i in s.insts && s.insts[i].worker.Idle? && 0 < |M.SeqSet(block)| <= s.chunk
    && M.Fetchable(RowsView(s.rows), BatchesView(s.batches), block, outcomes)
    && forall r :: r in block ==> Claimable(s, r)
  }

  /** The batches that the block touches. */
  lemma TouchedBatches(rows: map<RowId, Row>, block: seq<RowId>) returns (ids: set<BatchId>)
    requires M.SeqSet(block) <= rows.Keys
    ensures forall b :: b in ids <==> exists r :: r in M.SeqSet(block) && rows[r].batch == b
    ensures forall b :: b in ids <==> M.InBlock(RowsView(rows), block, b)
  {
    ids := set r | r in M.SeqSet(block) :: rows[r].batch;
    forall b
      ensures b in ids <==> M.InBlock(RowsView(rows), block, b)
    {
      if M.InBlock(RowsView(rows), block, b) {
        var r :| r in block && r in RowsView(rows) && RowsView(rows)[r].batch == b;
        assert r in M.SeqSet(block);
      }
    }
  }

  lemma ClaimedRowsView(rows: map<RowId, Row>, ids: set<RowId>, i: Instance)
    ensures RowsView(ClaimRows(rows, ids, i)) == M.MarkAll(RowsView(rows), ids, Inprog)
  {
  }

  lemma StartedView(s: State, ids: set<RowId>, batchIds: set<BatchId>)
    requires ids <= s.rows.Keys
    requires forall b :: b in batchIds <==> exists r :: r in ids && s.rows[r].batch == b
    ensures BatchesView(StartBatches(s, ids)) == M.StartBulk(BatchesView(s.batches), batchIds)
  {
    var t, u := BatchesView(StartBatches(s, ids)), M.StartBulk(BatchesView(s.batches), batchIds);
    assert t.Keys == u.Keys;
    forall b | b in s.batches
      ensures t[b] == u[b]
    {}
  }

  lemma ClaimedView(s: State, i: Instance, block: seq<RowId>, outcomes: map<RowId, Outcome>)
    requires CanClaim(s, i, block, outcomes)
    ensures M.SeqSet(block) <= s.rows.Keys
    ensures RowsView(ClaimRows(s.rows, M.SeqSet(block), i)) == M.RowsAfter(RowsView(s.rows), block, [], outcomes)
    ensures BatchesView(StartBatches(s, M.SeqSet(block))) ==
            M.BatchesAfter(RowsView(s.rows), BatchesView(s.batches), block, [], outcomes)
  {
    var ids := M.SeqSet(block);
    var batchIds := TouchedBatches(s.rows, block);
    M.ClaimedTables(RowsView(s.rows), BatchesView(s.batches), block, outcomes, ids, batchIds);
    ClaimedRowsView(s.rows, ids, i);
    StartedView(s, ids, batchIds);
  }

  lemma ClaimStep(s: State, i: Instance, block: seq<RowId>, outcomes: map<RowId, Outcome>) returns (t: State)
    requires CanClaim(s, i, block, outcomes)
    ensures Leads(s, t)
    ensures i in t.insts && t.insts[i].worker == Tracking(M.SeqSet(block), M.SeqSet(block))
    ensures t.insts[i].tracked == s.insts[i].tracked && t.sums == s.sums && t.candidates == s.candidates
    ensures Views(t, M.RowsAfter(RowsView(s.rows), block, [], outcomes),
                     M.BatchesAfter(RowsView(s.rows), BatchesView(s.batches), block, [], outcomes))
  {
    ClaimedView(s, i, block, outcomes);
    t := Apply(s, Block(i, Claim(M.SeqSet(block))));
    LeadsByStep(s, Block(i, Claim(M.SeqSet(block))));
  }

  lemma {:induction false} TrackRuns(s: State, i: Instance) returns (t: State)
    requires i in s.insts && s.insts[i].worker.Tracking? && s.insts[i].worker.untracked != {}
    ensures var x := s.insts[i];
      Leads(s, t) &&
      t == s.(insts := s.insts[i := x.(worker := Looping(x.worker.block, x.worker.block, Between, {}),
                                       tracked := x.tracked + x.worker.untracked)])
    decreases |s.insts[i].worker.untracked|
  {
    var x := s.insts[i];
    var r := Pick(x.worker.untracked);
    var u := Apply(s, Block(i, Track(r)));
    LeadsByStep(s, Block(i, Track(r)));
    if x.worker.untracked == {r} {
      t := u;
    } else {
      t := TrackRuns(u, i);
      LeadsOn(s, u, t);
      assert x.tracked + {r} + (x.worker.untracked - {r}) == x.tracked + x.worker.untracked;
    }
  }

  /** The loop stands before row k of the block. */
  ghost predicate Standing(s: State, i: Instance, rows: M.Rows, batches: M.Batches, block: seq<RowId>, k: nat,
                           outcomes: map<RowId, Outcome>)
    requires k <= |block| && forall q :: q in block ==> q in rows && q in outcomes
  {
    var done, ids := block[..k], M.SeqSet(block);
    && i in s.insts && s.insts[i].worker.Looping? && s.insts[i].worker.at.Between?
    && s.insts[i].worker.block == ids && s.insts[i].worker.left == ids - M.SeqSet(done)
    && Views(s, M.RowsAfter(rows, block, done, outcomes), M.BatchesAfter(rows, batches, block, done, outcomes))
    && (forall b, scope :: (b, scope) in s.insts[i].worker.keys ==> M.HasConfig(rows, done, outcomes, b))
    && (forall r :: r in block ==> rows[r].batch !in s.sums)
  }

  lemma StandingTurn(s: State, i: Instance, rows: M.Rows, batches: M.Batches, block: seq<RowId>, k: nat,
                     outcomes: map<RowId, Outcome>)
    requires M.Fetchable(rows, batches, block, outcomes) && k < |block|
    requires Standing(s, i, rows, batches, block, k, outcomes)
    ensures Turn(s, i, block[k]) && s.rows[block[k]].batch == rows[block[k]].batch
  {
    var r := block[k];
    assert r in block && r !in M.SeqSet(block[..k]);
    assert RowsView(s.rows).Keys == s.rows.Keys && BatchesView(s.batches).Keys == s.batches.Keys;
    assert RowsView(s.rows)[r].batch == rows[r].batch;
  }

  /** The tables after the iteration for row k. */
  lemma TablesNext(s: State, t: State, i: Instance, rows: M.Rows, batches: M.Batches, block: seq<RowId>, k: nat,
                   outcomes: map<RowId, Outcome>)
    requires M.Fetchable(rows, batches, block, outcomes) && k < |block|
    requires Standing(s, i, rows, batches, block, k, outcomes)
    requires Turn(s, i, block[k]) && Iterates(s, t, i, block[k], outcomes[block[k]])
    ensures Views(t, M.RowsAfter(rows, block, block[..k + 1], outcomes),
                     M.BatchesAfter(rows, batches, block, block[..k + 1], outcomes))
  {
    var r, done := block[k], block[..k];
    StandingTurn(s, i, rows, batches, block, k, outcomes);
    assert block[..k + 1] == done + [r];
    M.IteratedIsNext(rows, batches, block, done, r, outcomes,
      M.HasKey(s.insts[i].worker.keys, rows[r].batch, outcomes[r]));
  }

  /** A key is recorded only after a configuration error of its batch. */
  lemma KeysNext(s: State, t: State, i: Instance, rows: M.Rows, batches: M.Batches, block: seq<RowId>, k: nat,
                 outcomes: map<RowId, Outcome>)
    requires M.Fetchable(rows, batches, block, outcomes) && k < |block|
    requires Standing(s, i, rows, batches, block, k, outcomes)
    requires Turn(s, i, block[k]) && Iterates(s, t, i, block[k], outcomes[block[k]])
    ensures forall b, scope :: (b, scope) in t.insts[i].worker.keys ==> M.HasConfig(rows, block[..k + 1], outcomes, b)
  {
    StandingTurn(s, i, rows, batches, block, k, outcomes);
    assert block[..k + 1] == block[..k] + [block[k]];
    M.PrefixFacts(rows, batches, block, block[..k], block[k], outcomes);
  }

  lemma StandingNext(s: State, t: State, i: Instance, rows: M.Rows, batches: M.Batches, block: seq<RowId>, k: nat,
                     outcomes: map<RowId, Outcome>)
    requires M.Fetchable(rows, batches, block, outcomes) && k < |block|
    requires Standing(s, i, rows, batches, block, k, outcomes)
    requires Turn(s, i, block[k]) && Iterates(s, t, i, block[k], outcomes[block[k]])
    ensures Standing(t, i, rows, batches, block, k + 1, outcomes)
  {
    TablesNext(s, t, i, rows, batches, block, k, outcomes);
    KeysNext(s, t, i, rows, batches, block, k, outcomes);
    M.OneLess(M.SeqSet(block), block, k);
  }

  lemma LoopStep(s: State, i: Instance, rows: M.Rows, batches: M.Batches, block: seq<RowId>, k: nat,
                 outcomes: map<RowId, Outcome>) returns (t: State)
    requires M.Fetchable(rows, batches, block, outcomes) && k < |block|
    requires Standing(s, i, rows, batches, block, k, outcomes)
    ensures Leads(s, t) && Standing(t, i, rows, batches, block, k + 1, outcomes) && Frame(s, t, i)
    ensures t.insts[i].tracked == s.insts[i].tracked - {block[k]}
  {
    StandingTurn(s, i, rows, batches, block, k, outcomes);
    assert block[k] in block;
    t := RowRuns(s, i, block[k], outcomes[block[k]]);
    StandingNext(s, t, i, rows, batches, block, k, outcomes);
  }

  lemma SeqSetTail(block: seq<RowId>, k: nat)
    requires k < |block|
    ensures M.SeqSet(block[k..]) == {block[k]} + M.SeqSet(block[k + 1..])
  {
    assert block[k..] == [block[k]] + block[k + 1..];
  }

  lemma {:induction false} LoopRuns(s: State, i: Instance, rows: M.Rows, batches: M.Batches, block: seq<RowId>, k: nat,
                                    outcomes: map<RowId, Outcome>) returns (t: State)
    requires M.Fetchable(rows, batches, block, outcomes) && k <= |block|
    requires Standing(s, i, rows, batches, block, k, outcomes)
    ensures Leads(s, t) && Standing(t, i, rows, batches, block, |block|, outcomes)
    ensures i in s.insts && t.candidates == s.candidates
    ensures t.insts[i].tracked == s.insts[i].tracked - M.SeqSet(block[k..])
    decreases |block| - k
  {
    if k == |block| {
      t := s;
      assert Run(s, [], s);
      assert M.SeqSet(block[k..]) == {};
    } else {
      var u := LoopStep(s, i, rows, batches, block, k, outcomes);
      t := LoopRuns(u, i, rows, batches, block, k + 1, outcomes);
      LeadsOn(s, u, t);
      SeqSetTail(block, k);
    }
  }

  lemma EndStep(s: State, i: Instance, block: set<RowId>) returns (t: State)
    requires i in s.insts && s.insts[i].worker.Looping? && s.insts[i].worker.at.Between? && s.insts[i].worker.left == {}
    requires s.insts[i].worker.block == block && block <= s.rows.Keys
    ensures Leads(s, t) && i in t.insts && t.insts[i] == s.insts[i].(worker := Idle)
    ensures t.rows == s.rows && t.batches == s.batches && t.sums == s.sums
    ensures t.candidates == s.candidates + (set r | r in block :: s.rows[r].batch)
  {
    t := Apply(s, Block(i, EndBlock));
    LeadsByStep(s, Block(i, EndBlock));
  }

  lemma ClaimableRuns(s: State, i: Instance, block: seq<RowId>, outcomes: map<RowId, Outcome>) returns (t: State)
    requires CanClaim(s, i, block, outcomes)
    ensures Leads(s, t)
    ensures forall q :: q in block ==> q in RowsView(s.rows) && q in outcomes
    ensures RowsView(t.rows) == M.RowsAfter(RowsView(s.rows), block, block, outcomes)
    ensures BatchesView(t.batches) == M.BatchesAfter(RowsView(s.rows), BatchesView(s.batches), block, block, outcomes)
    ensures i in t.insts && t.insts[i].worker.Idle? && t.insts[i].tracked == s.insts[i].tracked - M.SeqSet(block)
    ensures forall b :: b in t.candidates <==> b in s.candidates || M.InBlock(RowsView(s.rows), block, b)
  {
    var rows, batches, ids := RowsView(s.rows), BatchesView(s.batches), M.SeqSet(block);
    var looping := LoopBegins(s, i, block, outcomes);
    assert block[0..] == block && block[..|block|] == block;
    var over := LoopRuns(looping, i, rows, batches, block, 0, outcomes);
    LeadsOn(s, looping, over);
    SameBatches(rows, block, outcomes, over.rows);
    t := EndStep(over, i, ids);
    LeadsOn(s, over, t);
    assert s.insts[i].tracked + ids - ids == s.insts[i].tracked - ids;
  }

  lemma LoopBegins(s: State, i: Instance, block: seq<RowId>, outcomes: map<RowId, Outcome>) returns (t: State)
    requires CanClaim(s, i, block, outcomes)
    ensures Leads(s, t)
    ensures forall q :: q in block ==> q in RowsView(s.rows) && q in outcomes
    ensures Standing(t, i, RowsView(s.rows), BatchesView(s.batches), block, 0, outcomes)
    ensures t.candidates == s.candidates && t.insts[i].tracked == s.insts[i].tracked + M.SeqSet(block)
  {
    var claimed := ClaimStep(s, i, block, outcomes);
    t := TrackRuns(claimed, i);
    LeadsOn(s, claimed, t);
    assert block[..0] == [];
  }

  lemma SameBatches(rows: M.Rows, block: seq<RowId>, outcomes: map<RowId, Outcome>, after: map<RowId, Row>)
    requires forall q :: q in block ==> q in rows && q in outcomes
    requires RowsView(after) == M.RowsAfter(rows, block, block, outcomes)
    ensures M.SeqSet(block) <= after.Keys
    ensures forall b :: b in (set r | r in M.SeqSet(block) :: after[r].batch) <==> M.InBlock(rows, block, b)
  {
    var ids := M.SeqSet(block);
    forall r | r in rows
      ensures r in after && after[r].batch == rows[r].batch
    {
      assert r in RowsView(after) && RowsView(after)[r].batch == rows[r].batch;
    }
    forall r | r in ids
      ensures r in after.Keys
    {
      assert r in block && r in rows;
    }
    var bs := set r | r in ids :: after[r].batch;
    forall b
      ensures b in bs <==> M.InBlock(rows, block, b)
    {
      if M.InBlock(rows, block, b) {
        var r :| r in block && r in rows && rows[r].batch == b;
        assert r in ids;
      }
    }
  }

  /** What FetchBlockOfRows returns to worker i: distinct rows that can be claimed, no more than a block. */
  ghost predicate Fetched(s: State, i: Instance, block: seq<RowId>, outcomes: map<RowId, Outcome>) {
    && i in s.insts && s.insts[i].worker.Idle? && block != [] && |block| <= s.chunk
    && (forall k, m :: 0 <= k < m < |block| ==> block[k] != block[m])
    && (forall r :: r in block ==>
        Claimable(s, r) && r in outcomes && (outcomes[r].Result? ==> Terminal(outcomes[r].st)))
  }

  lemma SeqSetSize(block: seq<RowId>)
    ensures |M.SeqSet(block)| <= |block| && (block != [] ==> M.SeqSet(block) != {})
  {
    if block != [] {
      var n := |block| - 1;
      SeqSetSize(block[..n]);
      assert block == block[..n] + [block[n]];
      assert M.SeqSet(block) == M.SeqSet(block[..n]) + {block[n]};
    }
  }

  /** In a reachable state the tables meet what the loop relies on. */
  lemma FetchedCanClaim(s: State, i: Instance, block: seq<RowId>, outcomes: map<RowId, Outcome>)
    requires Reachable(s) && Fetched(s, i, block, outcomes)
    ensures CanClaim(s, i, block, outcomes)
  {
    ReachableStructure(s);
    SeqSetSize(block);
    var rows, batches := RowsView(s.rows), BatchesView(s.batches);
    forall r | r in rows
      ensures !rows[r].status.Wait?
    {
      assert RowOk(s, r);
    }
    forall k | 0 <= k < |block|
      ensures block[k] in rows && block[k] in outcomes
    {
      assert block[k] in block;
    }
    assert M.Fetchable(rows, batches, block, outcomes);
  }

  /**
   An uninterrupted iteration is a run of the protocol: it ends with the tables that
   RunOneIteration computes, the rows untracked, the worker idle, and the batches of the block
   handed to the summariser.
   */
  lemma IterationIsRun(s: State, i: Instance, block: seq<RowId>, outcomes: map<RowId, Outcome>) returns (t: State)
    requires Reachable(s) && Fetched(s, i, block, outcomes)
    ensures Leads(s, t) && Reachable(t)
    ensures forall q :: q in block ==> q in RowsView(s.rows) && q in outcomes
    ensures RowsView(t.rows) == M.RowsAfter(RowsView(s.rows), block, block, outcomes)
    ensures BatchesView(t.batches) == M.BatchesAfter(RowsView(s.rows), BatchesView(s.batches), block, block, outcomes)
    ensures i in t.insts && t.insts[i].worker.Idle? && t.insts[i].tracked == s.insts[i].tracked - M.SeqSet(block)
    ensures forall b :: b in t.candidates <==> b in s.candidates || M.InBlock(RowsView(s.rows), block, b)
  {
    FetchedCanClaim(s, i, block, outcomes);
    t := ClaimableRuns(s, i, block, outcomes);
    LeadsReachable(s, t);
  }

  lemma LeadsReachable(s: State, t: State)
    requires Reachable(s) && Leads(s, t)
    ensures Reachable(t)
  {
    var a :| Run(Initial(s.chunk), a, s);
    var b :| Run(s, b, t);
    Ex.RunConcat(Initial(s.chunk), a, s, b, t);
    SameChunk(Initial(s.chunk), a + b, t);
  }

  // ---------------------------------------------------------------- a summary

  lemma SameStatus(rows: map<RowId, Row>, b: BatchId, st: Status)
    ensures M.WithStatus(RowsView(rows), M.InBatch(RowsView(rows), b), st) == RowsIn(rows, b, st)
  {
    var v := RowsView(rows);
    forall r
      ensures r in M.WithStatus(v, M.InBatch(v, b), st) <==> r in RowsIn(rows, b, st)
    {}
  }

  lemma SameTally(rows: map<RowId, Row>, b: BatchId)
    ensures M.TallyRows(RowsView(rows), b) == TallyOf(rows, b)
  {
    SameStatus(rows, b, Success);
    SameStatus(rows, b, Failed);
    SameStatus(rows, b, Aborted);
  }

  /** No summarisation of b is open, and the state is that of s but for the batches. */
  predicate Closed(s: State, t: State, b: BatchId) {
    b !in s.sums && t == s.(batches := t.batches)
  }

  /** The counts: a batch with pending rows is let go, any other goes on to the rows. */
  lemma CountsRun(s: State, b: BatchId) returns (t: State)
    requires b in s.batches && b in s.sums && s.sums[b].phase.Locked?
    ensures Leads(s, t)
    ensures t ==
      if M.NonePending(RowsView(s.rows), b) then s.(sums := s.sums[b := s.sums[b].(phase := NoInprog)])
      else CloseSum(s, b)
  {
    SameStatus(s.rows, b, Queued);
    SameStatus(s.rows, b, Inprog);
    t := Apply(s, Summary(b, CountQueued));
    LeadsByStep(s, Summary(b, CountQueued));
    if RowsIn(s.rows, b, Queued) == {} {
      var u := t;
      t := Apply(u, Summary(b, CountInprog));
      LeadsByStep(u, Summary(b, CountInprog));
      LeadsOn(s, u, t);
      assert t.sums ==
        if M.NonePending(RowsView(s.rows), b) then s.sums[b := s.sums[b].(phase := NoInprog)] else s.sums - {b};
    }
  }

  /** The counters are written, MarkDone is called, the transaction commits. */
  lemma CommitRuns(s: State, b: BatchId) returns (t: State)
    requires b in s.batches && b in s.sums && s.sums[b].phase.Tallied? && s.sums[b].tally == TallyOf(s.rows, b)
    ensures Leads(s, t) && t == CloseSum(s, b).(batches := t.batches)
    ensures BatchesView(t.batches) == BatchesView(s.batches)[b := M.SummaryOf(RowsView(s.rows), b)]
  {
    SameTally(s.rows, b);
    var marked := Apply(s, Summary(b, CallMarkDone));
    LeadsByStep(s, Summary(b, CallMarkDone));
    t := Apply(marked, Summary(b, Commit));
    LeadsByStep(marked, Summary(b, Commit));
    LeadsOn(s, marked, t);
    assert t.sums == s.sums - {b};
  }

  /** The rows are counted; without an initialiser the transaction is rolled back, else it commits. */
  lemma RecordRuns(s: State, b: BatchId, inits: set<BatchId>) returns (t: State)
    requires b in s.batches && b in s.sums && s.sums[b].phase.NoInprog?
    ensures Leads(s, t) && t == CloseSum(s, b).(batches := t.batches)
    ensures BatchesView(t.batches) ==
      if b in inits then BatchesView(s.batches)[b := M.SummaryOf(RowsView(s.rows), b)] else BatchesView(s.batches)
  {
    var tallied := Apply(s, Summary(b, TakeTally));
    LeadsByStep(s, Summary(b, TakeTally));
    if b in inits {
      t := CommitRuns(tallied, b);
    } else {
      t := Apply(tallied, Summary(b, Rollback));
      LeadsByStep(tallied, Summary(b, Rollback));
    }
    LeadsOn(s, tallied, t);
    assert t.sums == s.sums - {b};
  }

  lemma SumOpens(s: State, b: BatchId) returns (t: State)
    requires b in s.batches && b in s.candidates && b !in s.sums && !s.batches[b].done
    ensures Leads(s, t) && t == s.(sums := s.sums[b := Sum(Locked, Tally(0, 0, 0), {})])
    ensures t.sums - {b} == s.sums
  {
    t := Apply(s, Summary(b, Begin));
    LeadsByStep(s, Summary(b, Begin));
  }

  /**
   One uninterrupted attempt at a batch is a run of the protocol, whatever it finds: it ends with
   the tables that SummarizeBatch leaves and with the batch unlocked.
   */
  lemma SummaryRuns(s: State, b: BatchId, inits: set<BatchId>) returns (t: State)
    requires b in s.batches && b in s.candidates && b !in s.sums
    ensures Leads(s, t) && Closed(s, t, b)
    ensures var rows, batches := RowsView(s.rows), BatchesView(s.batches);
      BatchesView(t.batches) == if M.Ready(rows, batches, inits, b) then batches[b := M.SummaryOf(rows, b)] else batches
  {
    if s.batches[b].done {
      t := Apply(s, Summary(b, Begin));
      LeadsByStep(s, Summary(b, Begin));
    } else {
      var open := SumOpens(s, b);
      var counted := CountsRun(open, b);
      LeadsOn(s, open, counted);
      if M.NonePending(RowsView(s.rows), b) {
        t := RecordRuns(counted, b, inits);
        LeadsOn(s, counted, t);
        assert (counted.sums - {b}) == open.sums - {b};
      } else {
        t := counted;
      }
    }
  }

  // ---------------------------------------------------------------- recovery

  lemma ReadAndReset(s: State, p: RecId, d: Instance) returns (t: State)
    requires p !in s.recs && RecEnabled(s, Atomic(d))
    ensures Leads(s, t) && t.insts == s.insts && t.recs == s.recs[p := Rec(d, HasReset, s.insts[d].tracked)]
    ensures t.rows == ResetRows(s.rows, Resettable(s, s.insts[d].tracked))
  {
    var a := Apply(s, Recovery(ReadIds(p, d)));
    LeadsByStep(s, Recovery(ReadIds(p, d)));
    t := Apply(a, Recovery(Reset(p)));
    LeadsByStep(a, Recovery(Reset(p)));
    LeadsOn(s, a, t);
  }

  lemma DeleteAndRemove(s: State, p: RecId, d: Instance, ids: set<RowId>) returns (t: State)
    requires p in s.recs && s.recs[p] == Rec(d, HasReset, ids) && d in s.insts
    ensures Leads(s, t) && t.rows == s.rows && t.recs == s.recs - {p}
    ensures t.insts == s.insts[d := s.insts[d].(registered := false, tracked := {})]
  {
    var a := Apply(s, Recovery(DeleteIds(p)));
    LeadsByStep(s, Recovery(DeleteIds(p)));
    t := Apply(a, Recovery(Remove(p)));
    LeadsByStep(a, Recovery(Remove(p)));
    LeadsOn(s, a, t);
  }

  /**
   The four steps of a recovery, uninterrupted, do what RecoverRowsFromDeadInstance and the one
   step Atomic do: the inprog rows of the set are queued, set and registration are gone.
   */
  lemma RecoveryRuns(s: State, p: RecId, d: Instance) returns (t: State)
    requires p !in s.recs && RecEnabled(s, Atomic(d))
    ensures Leads(s, t) && t.recs == s.recs
    ensures t.rows == DoRecAtomic(s, d).rows && t.insts == DoRecAtomic(s, d).insts
    ensures RowsView(t.rows) == M.Requeued(RowsView(s.rows), s.insts[d].tracked)
    ensures t.insts == s.insts[d := s.insts[d].(registered := false, tracked := {})]
  {
    var u := ReadAndReset(s, p, d);
    t := DeleteAndRemove(u, p, d, s.insts[d].tracked);
    LeadsOn(s, u, t);
  }
}
