/**
 The loops of one worker, uninterrupted: RunOneIterationWithContext with processRow and
 handleProcessingError, and recoverAbandonedRows.  Each method is proved against the exact
 tables it leaves.
 */
module JobManagers {
  import opened BatchProtocol
  import opened Collections

  datatype DbRow = DbRow(batch: BatchId, line: int, status: Status)

  datatype DbBatch = DbBatch(status: Status, done: bool, counts: Option<Tally>)

  type Rows = map<RowId, DbRow>
  type Batches = map<BatchId, DbBatch>

  /** What a row ends with: the processor's status, or failed. */
  function OutcomeStatus(o: Outcome): Status {
    if o.Result? then o.st else Failed
  }

  // ---------------------------------------------------------------- the tables after k rows

  /** A configuration error occurred for the batch among these rows. */
  ghost predicate HasConfig(rows: Rows, done: seq<RowId>, outcomes: map<RowId, Outcome>, b: BatchId)
  {
    exists r :: r in done && r in outcomes && r in rows && outcomes[r].Config? && rows[r].batch == b
  }

  ghost predicate Fetchable(rows: Rows, batches: Batches, block: seq<RowId>, outcomes: map<RowId, Outcome>) {
    && (forall k, m :: 0 <= k < m < |block| ==> block[k] != block[m])
    && (forall k :: 0 <= k < |block| ==> block[k] in rows && block[k] in outcomes)
    && (forall r :: r in block ==>
          && r in rows && r in outcomes && rows[r].status.Queued? && rows[r].batch in batches
          && (outcomes[r].Result? ==> Terminal(outcomes[r].st)))
    && (forall r :: r in rows ==> !rows[r].status.Wait?)
    && (forall r, q :: r in rows && q in rows && rows[r].batch == rows[q].batch && rows[r].line == 0 ==> q == r)
  }

  function Claimed(rows: Rows, block: seq<RowId>, r: RowId): Status
    requires r in rows
  {
    if r in block then Inprog else rows[r].status
  }

  /** The status of a row once the loop has gone through `done`, a prefix of the block. */
  ghost function RowAfter(rows: Rows, block: seq<RowId>, done: seq<RowId>, outcomes: map<RowId, Outcome>,
                          r: RowId): Status
    requires r in rows && forall q :: q in done ==> q in rows && q in outcomes
  {
    if r in done then OutcomeStatus(outcomes[r])
    else if HasConfig(rows, done, outcomes, rows[r].batch) && Pending(Claimed(rows, block, r)) then Failed
    else Claimed(rows, block, r)
  }

  ghost function RowsAfter(rows: Rows, block: seq<RowId>, done: seq<RowId>, outcomes: map<RowId, Outcome>): Rows
    requires forall q :: q in done ==> q in rows && q in outcomes
  {
    map r | r in rows :: rows[r].(status := RowAfter(rows, block, done, outcomes, r))
  }

  ghost predicate SlowDone(rows: Rows, done: seq<RowId>, b: BatchId, r: RowId) {
    r in done && r in rows && rows[r].batch == b && rows[r].line == 0
  }

  ghost predicate HasSlow(rows: Rows, done: seq<RowId>, b: BatchId) {
    exists r :: SlowDone(rows, done, b, r)
  }

  ghost function SlowRow(rows: Rows, done: seq<RowId>, b: BatchId): (r: RowId)
    requires HasSlow(rows, done, b)
    ensures SlowDone(rows, done, b, r)
  {
    var r :| SlowDone(rows, done, b, r);
    r
  }

  ghost predicate InBlock(rows: Rows, block: seq<RowId>, b: BatchId) {
    exists r :: r in block && r in rows && rows[r].batch == b
  }

  /** The record of a batch once the loop has gone through `done`. */
  ghost function BatchAfter(rows: Rows, batches: Batches, block: seq<RowId>, done: seq<RowId>,
                            outcomes: map<RowId, Outcome>, b: BatchId): DbBatch
    requires b in batches && forall q :: q in done ==> q in rows && q in outcomes
  {
    if HasConfig(rows, done, outcomes, b) then DbBatch(Failed, true, None)
    else if HasSlow(rows, done, b) then
      DbBatch(OutcomeStatus(outcomes[SlowRow(rows, done, b)]), true, batches[b].counts)
    else if batches[b].status.Queued? && InBlock(rows, block, b) then batches[b].(status := Inprog)
    else batches[b]
  }

  ghost function BatchesAfter(rows: Rows, batches: Batches, block: seq<RowId>, done: seq<RowId>,
                              outcomes: map<RowId, Outcome>): Batches
    requires forall q :: q in done ==> q in rows && q in outcomes
  {
    map b | b in batches :: BatchAfter(rows, batches, block, done, outcomes, b)
  }

  // ---------------------------------------------------------------- one row further

  /** UpdateBatchRowsByBatchAppOp and UpdateBatchRowsByBatchApp with status failed. */
  function BulkFailed(rows: Rows, b: BatchId): Rows {
    map r | r in rows :: if rows[r].batch == b && Pending(rows[r].status) then rows[r].(status := Failed) else rows[r]
  }

  /** UpdateBatchRowsStatusBulk. */
  function MarkAll(rows: Rows, ids: set<RowId>, st: Status): Rows {
    map r | r in rows :: if r in ids then rows[r].(status := st) else rows[r]
  }

  /** UpdateBatchesStatusBulk moves only queued batches to inprog. */
  function StartBulk(batches: Batches, ids: set<BatchId>): Batches {
    map b | b in batches :: if b in ids && batches[b].status.Queued? then batches[b].(status := Inprog) else batches[b]
  }

  function SetStatus(rows: Rows, r: RowId, st: Status): Rows
    requires r in rows
  {
    rows[r := rows[r].(status := st)]
  }

  ghost predicate Prefix(rows: Rows, batches: Batches, block: seq<RowId>, done: seq<RowId>, r: RowId,
                         outcomes: map<RowId, Outcome>) {
    && Fetchable(rows, batches, block, outcomes)
    && |done| < |block| && done == block[..|done|] && r == block[|done|]
  }

  lemma PrefixFacts(rows: Rows, batches: Batches, block: seq<RowId>, done: seq<RowId>, r: RowId,
                    outcomes: map<RowId, Outcome>)
    requires Prefix(rows, batches, block, done, r, outcomes)
    ensures r in block && r !in done && forall q :: q in done ==> q in block
    ensures r in rows && r in outcomes
    ensures forall b :: HasConfig(rows, done + [r], outcomes, b) <==>
              HasConfig(rows, done, outcomes, b) || (outcomes[r].Config? && rows[r].batch == b)
    ensures forall b :: HasSlow(rows, done + [r], b) <==>
        HasSlow(rows, done, b) || (rows[r].line == 0 && rows[r].batch == b)
  {
    forall b, q | SlowDone(rows, done, b, q)
      ensures SlowDone(rows, done + [r], b, q)
    {}
    if rows[r].line == 0 {
      assert SlowDone(rows, done + [r], rows[r].batch, r);
    }
    forall b, q | SlowDone(rows, done + [r], b, q) && q != r
      ensures SlowDone(rows, done, b, q)
    {}
  }

  /** A result or a failed row: only the row itself moves. */
  lemma RowsOne(rows: Rows, batches: Batches, block: seq<RowId>, done: seq<RowId>, r: RowId,
                outcomes: map<RowId, Outcome>)
    requires Prefix(rows, batches, block, done, r, outcomes)
    requires !outcomes[r].Config? || HasConfig(rows, done, outcomes, rows[r].batch)
    ensures r in rows && forall q :: q in done + [r] ==> q in rows && q in outcomes
    ensures RowsAfter(rows, block, done + [r], outcomes) ==
            SetStatus(RowsAfter(rows, block, done, outcomes), r, OutcomeStatus(outcomes[r]))
  {
    PrefixFacts(rows, batches, block, done, r, outcomes);
  }

  /** A new configuration error: every pending row of the batch fails, then the row itself. */
  lemma RowsBulk(rows: Rows, batches: Batches, block: seq<RowId>, done: seq<RowId>, r: RowId,
                 outcomes: map<RowId, Outcome>)
    requires Prefix(rows, batches, block, done, r, outcomes) && outcomes[r].Config?
    ensures r in rows && forall q :: q in done + [r] ==> q in rows && q in outcomes
    ensures RowsAfter(rows, block, done + [r], outcomes) ==
            SetStatus(BulkFailed(RowsAfter(rows, block, done, outcomes), rows[r].batch), r, Failed)
  {
    PrefixFacts(rows, batches, block, done, r, outcomes);
    var t, u := RowsAfter(rows, block, done, outcomes), RowsAfter(rows, block, done + [r], outcomes);
    var v := SetStatus(BulkFailed(t, rows[r].batch), r, Failed);
    assert u.Keys == v.Keys;
    forall q | q in rows
      ensures u[q] == v[q]
    {
      if q in done { assert Terminal(OutcomeStatus(outcomes[q])); }
    }
  }

  lemma SlowIsOnly(rows: Rows, batches: Batches, block: seq<RowId>, done: seq<RowId>, r: RowId,
                   outcomes: map<RowId, Outcome>)
    requires Prefix(rows, batches, block, done, r, outcomes) && r in rows && rows[r].line == 0
    ensures !HasConfig(rows, done, outcomes, rows[r].batch) && !HasSlow(rows, done, rows[r].batch)
    ensures HasSlow(rows, done + [r], rows[r].batch) && SlowRow(rows, done + [r], rows[r].batch) == r
  {
    PrefixFacts(rows, batches, block, done, r, outcomes);
  }

  /** What the iteration for row r does to the batches. */
  lemma BatchesStep(rows: Rows, batches: Batches, block: seq<RowId>, done: seq<RowId>, r: RowId,
                    outcomes: map<RowId, Outcome>)
    requires Prefix(rows, batches, block, done, r, outcomes)
    ensures r in rows && rows[r].batch in batches && forall q :: q in done + [r] ==> q in rows && q in outcomes
    ensures var t := BatchesAfter(rows, batches, block, done, outcomes);
      var b := rows[r].batch;
      b in t &&
      BatchesAfter(rows, batches, block, done + [r], outcomes) ==
        if outcomes[r].Config? then t[b := DbBatch(Failed, true, None)]
        else if rows[r].line == 0 then t[b := t[b].(status := OutcomeStatus(outcomes[r]), done := true)]
        else t
  {
    PrefixFacts(rows, batches, block, done, r, outcomes);
    var b := rows[r].batch;
    if rows[r].line == 0 { SlowIsOnly(rows, batches, block, done, r, outcomes); }
    var t, u := BatchesAfter(rows, batches, block, done, outcomes),
      BatchesAfter(rows, batches, block, done + [r], outcomes);
    forall c | c in batches && (c != b || (!outcomes[r].Config? && rows[r].line != 0))
      ensures u[c] == t[c]
    {
      if HasSlow(rows, done, c) {
        var q := SlowRow(rows, done, c);
        var q' := SlowRow(rows, done + [r], c);
        assert q == q';
      }
    }
  }

  /** The two bulk updates of the claim. */
  lemma ClaimedTables(rows: Rows, batches: Batches, block: seq<RowId>, outcomes: map<RowId, Outcome>,
                      rowIds: set<RowId>, batchIds: set<BatchId>)
    requires forall r :: r in rowIds <==> r in block
    requires forall b :: b in batches && batches[b].status.Queued? ==> (b in batchIds <==> InBlock(rows, block, b))
    ensures RowsAfter(rows, block, [], outcomes) == MarkAll(rows, rowIds, Inprog)
    ensures BatchesAfter(rows, batches, block, [], outcomes) == StartBulk(batches, batchIds)
  {
  }

  predicate HasKey(keys: set<(BatchId, Scope)>, b: BatchId, o: Outcome) {
    o.Config? && (b, o.scope) in keys
  }

  /** The tables after the iteration for one row; `seen` says that its error key was recorded before. */
  function Iterated(rows: Rows, batches: Batches, seen: bool, r: RowId, o: Outcome): (Rows, Batches)
    requires r in rows && rows[r].batch in batches
  {
    var b := rows[r].batch;
    if seen then (rows, batches)
    else if o.Config? then (SetStatus(BulkFailed(rows, b), r, Failed), batches[b := DbBatch(Failed, true, None)])
    else (SetStatus(rows, r, OutcomeStatus(o)),
          if rows[r].line == 0 then batches[b := batches[b].(status := OutcomeStatus(o), done := true)] else batches)
  }

  // ---------------------------------------------------------------- what one iteration means

  predicate BatchTerminal(rows: Rows, b: BatchId) {
    forall r :: r in rows && rows[r].batch == b ==> Terminal(rows[r].status)
  }

  /**
   An iteration ends its row: with the processor's status, or failed after a panic or an error.
   Beyond it, it touches only pending rows of the same batch, and those only to fail them.
   */
  lemma IterationEndsRow(rows: Rows, batches: Batches, r: RowId, o: Outcome, q: RowId)
    requires r in rows && rows[r].batch in batches && (o.Result? ==> Terminal(o.st)) && q in rows
    ensures var next := Iterated(rows, batches, false, r, o);
      && r in next.0 && Terminal(next.0[r].status)
      && next.0[r] == DbRow(rows[r].batch, rows[r].line, if o.Result? then o.st else Failed)
      && q in next.0 && next.0[q].batch == rows[q].batch && next.0[q].line == rows[q].line
      && (q != r && next.0[q] != rows[q] ==>
            o.Config? && rows[q].batch == rows[r].batch && Pending(rows[q].status) && next.0[q].status.Failed?)
      && forall b :: b in batches && b != rows[r].batch ==> b in next.1 && next.1[b] == batches[b]
  {
  }

  /** A configuration error is the end of the whole batch: every row is terminal and the record failed and done. */
  lemma ConfigErrorEndsBatch(rows: Rows, batches: Batches, r: RowId, o: Outcome)
    requires r in rows && rows[r].batch in batches && o.Config?
    requires forall q :: q in rows ==> !rows[q].status.Wait?
    ensures var next := Iterated(rows, batches, false, r, o);
      && BatchTerminal(next.0, rows[r].batch)
      && rows[r].batch in next.1 && next.1[rows[r].batch] == DbBatch(Failed, true, None)
      && forall q :: q in rows && Terminal(rows[q].status) && q != r ==> next.0[q] == rows[q]
  {
    var next := Iterated(rows, batches, false, r, o);
    forall q | q in next.0 && next.0[q].batch == rows[r].batch
      ensures Terminal(next.0[q].status)
    {
      assert q in rows && !rows[q].status.Wait?;
    }
  }

  /**
   Handling the same error key again would change nothing: after a configuration error, skipping
   a further row of the batch that was pending then is the same as handling its error.
   */
  lemma RepeatedKeyIsIdempotent(rows: Rows, batches: Batches, r: RowId, q: RowId, o: Outcome)
    requires r in rows && q in rows && rows[q].batch == rows[r].batch && rows[r].batch in batches && o.Config?
    requires Pending(rows[q].status) && forall p :: p in rows ==> !rows[p].status.Wait?
    ensures var next := Iterated(rows, batches, false, r, o);
      && q in next.0 && next.0[q].batch in next.1
      && Iterated(next.0, next.1, true, q, o) == Iterated(next.0, next.1, false, q, o)
  {
    var next := Iterated(rows, batches, false, r, o);
    ConfigErrorEndsBatch(rows, batches, r, o);
    assert next.0[q].status == Failed;
    assert BulkFailed(next.0, rows[r].batch) == next.0;
    assert SetStatus(next.0, q, Failed) == next.0;
    assert next.1[rows[r].batch := DbBatch(Failed, true, None)] == next.1;
  }

  /** The tables and error keys once the loop has gone through block[..k]. */
  ghost predicate Stage(rows0: Rows, batches0: Batches, block: seq<RowId>, k: nat, outcomes: map<RowId, Outcome>,
                        rows: Rows, batches: Batches, keys: set<(BatchId, Scope)>)
    requires k <= |block|
  {
    && (forall q :: q in block[..k] ==> q in rows0 && q in outcomes)
    && rows == RowsAfter(rows0, block, block[..k], outcomes)
    && batches == BatchesAfter(rows0, batches0, block, block[..k], outcomes)
    && forall b, scope :: (b, scope) in keys ==> HasConfig(rows0, block[..k], outcomes, b)
  }

  lemma StageNext(rows0: Rows, batches0: Batches, block: seq<RowId>, k: nat, outcomes: map<RowId, Outcome>,
                  rows: Rows, batches: Batches, keys: set<(BatchId, Scope)>)
    requires Fetchable(rows0, batches0, block, outcomes) && k < |block|
    requires Stage(rows0, batches0, block, k, outcomes, rows, batches, keys)
    ensures
      var r, o := block[k], outcomes[block[k]];
      && r in rows && rows[r].batch in batches
      && var next := Iterated(rows, batches, HasKey(keys, rows[r].batch, o), r, o);
         Stage(rows0, batches0, block, k + 1, outcomes, next.0, next.1,
               keys + (if o.Config? then {(rows[r].batch, o.scope)} else {}))
  {
    assert block[..k + 1] == block[..k] + [block[k]] && block[k] in block;
    PrefixFacts(rows0, batches0, block, block[..k], block[k], outcomes);
    IteratedIsNext(rows0, batches0, block, block[..k], block[k], outcomes,
                   HasKey(keys, rows0[block[k]].batch, outcomes[block[k]]));
  }

  lemma IteratedIsNext(rows: Rows, batches: Batches, block: seq<RowId>, done: seq<RowId>, r: RowId,
                       outcomes: map<RowId, Outcome>, seen: bool)
    requires Prefix(rows, batches, block, done, r, outcomes) && r in rows && r in outcomes
    requires seen ==> outcomes[r].Config? && HasConfig(rows, done, outcomes, rows[r].batch)
    ensures forall q :: q in done + [r] ==> q in rows && q in outcomes
    ensures
      var t, u := RowsAfter(rows, block, done, outcomes), BatchesAfter(rows, batches, block, done, outcomes);
      && r in t && t[r].batch in u && t[r].batch == rows[r].batch
      && (RowsAfter(rows, block, done + [r], outcomes), BatchesAfter(rows, batches, block, done + [r], outcomes))
         == Iterated(t, u, seen, r, outcomes[r])
  {
    PrefixFacts(rows, batches, block, done, r, outcomes);
    BatchesStep(rows, batches, block, done, r, outcomes);
    if outcomes[r].Config? && !seen {
      RowsBulk(rows, batches, block, done, r, outcomes);
    } else {
      RowsOne(rows, batches, block, done, r, outcomes);
      if seen {
        var t := RowsAfter(rows, block, done, outcomes);
        assert t[r].status == Failed && SetStatus(t, r, Failed) == t;
        var u := BatchesAfter(rows, batches, block, done, outcomes);
        assert u[rows[r].batch := DbBatch(Failed, true, None)] == u;
      }
    }
  }

  /** Some row of the block met a configuration error in batch b. */
  ghost predicate BatchRefused(rows: Rows, block: seq<RowId>, outcomes: map<RowId, Outcome>, b: BatchId) {
    exists q :: q in block && q in rows && q in outcomes && outcomes[q].Config? && rows[q].batch == b
  }

  /**
   What a row is after a block: a row of the block has its result, or is failed; another row is
   failed if it was pending and its batch met a configuration error, and else is what it was.
   */
  ghost predicate RowFinished(rows: Rows, block: seq<RowId>, outcomes: map<RowId, Outcome>, r: RowId, after: DbRow)
    requires r in rows && forall q :: q in block ==> q in outcomes
  {
    if r in block
    then after == DbRow(rows[r].batch, rows[r].line, if outcomes[r].Result? then outcomes[r].st else Failed)
    else if Pending(rows[r].status) && BatchRefused(rows, block, outcomes, rows[r].batch)
    then after == DbRow(rows[r].batch, rows[r].line, Failed)
    else after == rows[r]
  }

  /**
   What a batch is after a block: failed and done after a configuration error; done with the status
   of its row if that was a slow query of the block; in process if it was queued and has rows in
   the block; and else what it was.
   */
  ghost predicate BatchFinished(rows: Rows, batches: Batches, block: seq<RowId>, outcomes: map<RowId, Outcome>,
                                b: BatchId, after: DbBatch)
    requires b in batches && forall q :: q in block ==> q in rows && q in outcomes
  {
    && (BatchRefused(rows, block, outcomes, b) ==> after == DbBatch(Failed, true, None))
    && (!BatchRefused(rows, block, outcomes, b) ==>
          && (forall r :: r in block && rows[r].batch == b && rows[r].line == 0 ==>
                after == DbBatch(if outcomes[r].Result? then outcomes[r].st else Failed, true, batches[b].counts))
          && ((forall r :: r in block && rows[r].batch == b ==> rows[r].line != 0) ==>
                if batches[b].status.Queued? && exists r :: r in block && rows[r].batch == b
                then after == DbBatch(Inprog, batches[b].done, batches[b].counts)
                else after == batches[b]))
  }

  /** A row after an iteration; every row of the block is terminal. */
  lemma IterationCompletes(rows: Rows, batches: Batches, block: seq<RowId>, outcomes: map<RowId, Outcome>, r: RowId)
    requires Fetchable(rows, batches, block, outcomes) && r in rows
    ensures forall q :: q in block ==> q in rows && q in outcomes
    ensures RowFinished(rows, block, outcomes, r, RowsAfter(rows, block, block, outcomes)[r])
    ensures r in block ==> Terminal(RowsAfter(rows, block, block, outcomes)[r].status)
  {
  }

  /** A batch after an iteration. */
  lemma BatchCompletes(rows: Rows, batches: Batches, block: seq<RowId>, outcomes: map<RowId, Outcome>, b: BatchId)
    requires Fetchable(rows, batches, block, outcomes) && b in batches
    ensures forall q :: q in block ==> q in rows && q in outcomes
    ensures BatchFinished(rows, batches, block, outcomes, b, BatchesAfter(rows, batches, block, block, outcomes)[b])
  {
    assert HasConfig(rows, block, outcomes, b) <==> BatchRefused(rows, block, outcomes, b);
    forall r | r in block && rows[r].batch == b && rows[r].line == 0
      ensures HasSlow(rows, block, b) && SlowRow(rows, block, b) == r
    {
      assert SlowDone(rows, block, b, r);
    }
    assert InBlock(rows, block, b) <==> exists r :: r in block && rows[r].batch == b;
  }

  /** All of it, for the whole tables. */
  lemma BlockCompletes(rows: Rows, batches: Batches, block: seq<RowId>, outcomes: map<RowId, Outcome>)
    requires Fetchable(rows, batches, block, outcomes)
    ensures forall q :: q in block ==> q in rows && q in outcomes
    ensures var t, u := RowsAfter(rows, block, block, outcomes), BatchesAfter(rows, batches, block, block, outcomes);
      && t.Keys == rows.Keys && u.Keys == batches.Keys
      && (forall r :: r in t ==> RowFinished(rows, block, outcomes, r, t[r]))
      && (forall b :: b in u ==> BatchFinished(rows, batches, block, outcomes, b, u[b]))
      && (forall r :: r in block ==> r in t && Terminal(t[r].status))
      && (forall r :: r in t && r !in block && t[r] != rows[r] ==> Pending(rows[r].status) && t[r].status.Failed?)
  {
    var t, u := RowsAfter(rows, block, block, outcomes), BatchesAfter(rows, batches, block, block, outcomes);
    forall r | r in rows
      ensures RowFinished(rows, block, outcomes, r, t[r]) && (r in block ==> Terminal(t[r].status))
    {
      IterationCompletes(rows, batches, block, outcomes, r);
    }
    forall b | b in batches
      ensures BatchFinished(rows, batches, block, outcomes, b, u[b])
    {
      BatchCompletes(rows, batches, block, outcomes, b);
    }
  }

  // ---------------------------------------------------------------- the job manager

  function SeqSet(s: seq<RowId>): set<RowId> {
    set r | r in s
  }

  lemma OneLess(ids: set<RowId>, block: seq<RowId>, k: nat)
    requires k < |block|
    ensures ids - SeqSet(block[..k + 1]) == ids - SeqSet(block[..k]) - {block[k]}
  {
    assert block[..k + 1] == block[..k] + [block[k]];
  }

  lemma NoneOf(block: seq<RowId>)
    ensures block[..0] == [] && SeqSet(block[..0]) == {}
  {
  }

  lemma AllOf(block: seq<RowId>)
    ensures block[..|block|] == block
  {
  }

  /** The rows that some instance of `dead` had tracked. */
  ghost predicate HeldByOne(held: map<Instance, set<RowId>>, dead: set<Instance>, r: RowId) {
    exists d :: d in dead && d in held && r in held[d]
  }

  ghost function Abandoned(rows: Rows, held: map<Instance, set<RowId>>, dead: set<Instance>): set<RowId> {
    set r | r in rows && rows[r].status.Inprog? && HeldByOne(held, dead, r)
  }

  function Requeued(rows: Rows, ids: set<RowId>): Rows {
    map r | r in rows :: if r in ids && rows[r].status.Inprog? then rows[r].(status := Queued) else rows[r]
  }

  function HeldBy(held: map<Instance, set<RowId>>, d: Instance): set<RowId> {
    if d in held then held[d] else {}
  }

  /** The sizes of the rows-sets of some instances, added up. */
  ghost function SumHeld(held: map<Instance, set<RowId>>, s: set<Instance>): nat {
    if s == {} then 0 else var d := SomeOf(s); |HeldBy(held, d)| + SumHeld(held, s - {d})
  }

  lemma {:induction false} SumHeldOf(held: map<Instance, set<RowId>>, s: set<Instance>, d: Instance)
    requires d in s
    ensures SumHeld(held, s) == |HeldBy(held, d)| + SumHeld(held, s - {d})
    decreases |s|
  {
    var e := SomeOf(s);
    if e != d {
      SumHeldOf(held, s - {e}, d);
      SumHeldOf(held, s - {d}, e);
      assert s - {e} - {d} == s - {d} - {e};
    }
  }

  lemma HeldByOneMore(held: map<Instance, set<RowId>>, dead: set<Instance>, d: Instance, r: RowId)
    ensures HeldByOne(held, dead + {d}, r) <==> HeldByOne(held, dead, r) || r in HeldBy(held, d)
  {
    if r in HeldBy(held, d) { assert d in dead + {d}; }
    if HeldByOne(held, dead, r) {
      var e :| e in dead && e in held && r in held[e];
      assert e in dead + {d};
    }
  }

  /** Recovering one more dead instance: the rows it alone held are requeued as well. */
  lemma AbandonedStep(rows: Rows, held: map<Instance, set<RowId>>, dead: set<Instance>, d: Instance)
    ensures Requeued(Requeued(rows, Abandoned(rows, held, dead)), HeldBy(held, d)) ==
            Requeued(rows, Abandoned(rows, held, dead + {d}))
    ensures |Abandoned(rows, held, dead + {d})| <= |Abandoned(rows, held, dead)| + |HeldBy(held, d)|
  {
    var ids, more, own := Abandoned(rows, held, dead), Abandoned(rows, held, dead + {d}), HeldBy(held, d);
    forall r | r in rows
      ensures r in more <==> r in ids || (r in own && rows[r].status.Inprog?)
    {
      HeldByOneMore(held, dead, d, r);
    }
    RequeuedTwice(rows, ids, own, more);
    UnionSize(more, ids, own);
  }

  lemma RequeuedTwice(rows: Rows, ids: set<RowId>, own: set<RowId>, more: set<RowId>)
    requires forall r :: r in rows ==> (r in more <==> r in ids || (r in own && rows[r].status.Inprog?))
    ensures Requeued(Requeued(rows, ids), own) == Requeued(rows, more)
  {
    var t, u := Requeued(Requeued(rows, ids), own), Requeued(rows, more);
    assert t.Keys == rows.Keys == u.Keys;
    forall r | r in rows
      ensures t[r] == u[r]
    {}
  }

  lemma InBlockGrows(rows: Rows, block: seq<RowId>, k: nat, b: BatchId)
    requires k < |block| && block[k] in rows
    ensures InBlock(rows, block[..k + 1], b) <==> InBlock(rows, block[..k], b) || b == rows[block[k]].batch
  {
    assert block[..k + 1] == block[..k] + [block[k]];
    if b == rows[block[k]].batch { assert block[k] in block[..k + 1]; }
    forall r | r in rows && rows[r].batch == b
      ensures r in block[..k + 1] <==> r in block[..k] || r == block[k]
    {}
  }

  // ---------------------------------------------------------------- summaries

  function InBatch(rows: Rows, b: BatchId): set<RowId> {
    set r | r in rows && rows[r].batch == b
  }

  function WithStatus(rows: Rows, ids: set<RowId>, st: Status): set<RowId> {
    set r | r in ids && r in rows && rows[r].status == st
  }

  function TallyRows(rows: Rows, b: BatchId): Tally {
    var ids := InBatch(rows, b);
    Tally(|WithStatus(rows, ids, Success)|, |WithStatus(rows, ids, Failed)|, |WithStatus(rows, ids, Aborted)|)
  }

  predicate NonePending(rows: Rows, b: BatchId) {
    WithStatus(rows, InBatch(rows, b), Queued) == {} && WithStatus(rows, InBatch(rows, b), Inprog) == {}
  }

  /** The batch can be summarised: not done yet, no pending row, and its app has an initialiser. */
  predicate Ready(rows: Rows, batches: Batches, inits: set<BatchId>, b: BatchId) {
    b in batches && !batches[b].done && NonePending(rows, b) && b in inits
  }

  function SummaryOf(rows: Rows, b: BatchId): DbBatch {
    DbBatch(DetermineBatchStatus(TallyRows(rows, b)), true, Some(TallyRows(rows, b)))
  }

  /**
   The status of a batch, read off its rows: aborted if one is aborted, failed if none is aborted
   and one is failed, success if neither.
   */
  ghost predicate StatusFits(rows: Rows, b: BatchId, st: Status) {
    if exists r :: r in rows && rows[r].batch == b && rows[r].status.Aborted? then st == Aborted
    else if exists r :: r in rows && rows[r].batch == b && rows[r].status.Failed? then st == Failed
    else st == Success
  }

  /** The counters are the numbers of successful, failed and aborted rows. */
  ghost predicate CountersFit(rows: Rows, b: BatchId, t: Tally) {
    && t.nsuccess == |set r | r in rows && rows[r].batch == b && rows[r].status.Success?|
    && t.nfailed == |set r | r in rows && rows[r].batch == b && rows[r].status.Failed?|
    && t.naborted == |set r | r in rows && rows[r].batch == b && rows[r].status.Aborted?|
  }

  ghost predicate SummaryFits(rows: Rows, b: BatchId, x: DbBatch) {
    x.done && x.counts.Some? && CountersFit(rows, b, x.counts.value) && StatusFits(rows, b, x.status)
  }

  lemma TallyFits(rows: Rows, b: BatchId)
    ensures CountersFit(rows, b, TallyRows(rows, b))
  {
    var ids := InBatch(rows, b);
    assert WithStatus(rows, ids, Success) == set r | r in rows && rows[r].batch == b && rows[r].status.Success?;
    assert WithStatus(rows, ids, Failed) == set r | r in rows && rows[r].batch == b && rows[r].status.Failed?;
    assert WithStatus(rows, ids, Aborted) == set r | r in rows && rows[r].batch == b && rows[r].status.Aborted?;
  }

  lemma SomeCounted(rows: Rows, b: BatchId, st: Status)
    ensures |WithStatus(rows, InBatch(rows, b), st)| > 0 <==>
      exists r :: r in rows && rows[r].batch == b && rows[r].status == st
  {
    var ids := WithStatus(rows, InBatch(rows, b), st);
    if exists r :: r in rows && rows[r].batch == b && rows[r].status == st {
      var r :| r in rows && rows[r].batch == b && rows[r].status == st;
      assert r in ids;
    }
    if ids != {} {
      var r := Pick(ids);
      assert r in rows && rows[r].batch == b && rows[r].status == st;
    }
  }

  /** What a summary records fits the rows. */
  lemma SummaryIsFit(rows: Rows, b: BatchId)
    ensures SummaryFits(rows, b, SummaryOf(rows, b))
  {
    TallyFits(rows, b);
    SomeCounted(rows, b, Aborted);
    SomeCounted(rows, b, Failed);
  }

  const MAX_RETRIES: nat := 5

  /** What one attempt finds: the tables as the other workers have left them, and the advisory lock. */
  datatype Snap = Snap(rows: Rows, batches: Batches, lockFree: bool, order: seq<RowId>)

  /** One snapshot for each attempt at batch b. */
  ghost predicate Attempts(views: seq<Snap>, b: BatchId) {
    |views| == 5 && forall k :: 0 <= k < |views| ==> Lists(views[k].rows, b, views[k].order)
  }

  /** All rows are fetched and some are being processed, or so the snapshot says. */
  predicate OnlyInprog(rows: Rows, batches: Batches, b: BatchId) {
    && b in batches && !batches[b].done
    && WithStatus(rows, InBatch(rows, b), Queued) == {} && WithStatus(rows, InBatch(rows, b), Inprog) != {}
  }

  /** The attempt ends in one of the two errors after which there is another. */
  predicate Retryable(v: Snap, b: BatchId) {
    !v.lockFree || OnlyInprog(v.rows, v.batches, b)
  }

  predicate Serves(v: Snap, inits: set<BatchId>, b: BatchId) {
    v.lockFree && Ready(v.rows, v.batches, inits, b)
  }

  /** Attempt k is the one that decides, and it finds the batch ready. */
  predicate DueAt(views: seq<Snap>, inits: set<BatchId>, b: BatchId, k: nat) {
    k < |views| && (forall j :: 0 <= j < k ==> Retryable(views[j], b)) && Serves(views[k], inits, b)
  }

  predicate Due(views: seq<Snap>, inits: set<BatchId>, b: BatchId) {
    exists k :: 0 <= k < |views| && DueAt(views, inits, b, k)
  }

  function AfterAttempt(v: Snap, inits: set<BatchId>, b: BatchId): Batches {
    if Serves(v, inits, b) then v.batches[b := SummaryOf(v.rows, b)] else v.batches
  }

  lemma WithStatusGrows(rows: Rows, ids: set<RowId>, r: RowId, st: Status)
    requires r !in ids && r in rows
    ensures WithStatus(rows, ids + {r}, st) == WithStatus(rows, ids, st) + (if rows[r].status == st then {r} else {})
    ensures |WithStatus(rows, ids + {r}, st)| == |WithStatus(rows, ids, st)| + (if rows[r].status == st then 1 else 0)
  {
  }

  /** `order` lists the rows of the batch once each, as the query sorted by line does. */
  ghost predicate Lists(rows: Rows, b: BatchId, order: seq<RowId>) {
    && SeqSet(order) == InBatch(rows, b)
    && (forall k, m :: 0 <= k < m < |order| ==> order[k] != order[m])
    && (forall k :: 0 <= k < |order| ==> order[k] in rows)
  }

  lemma SeqSetMore(order: seq<RowId>, k: nat)
    requires k < |order| && forall i, j :: 0 <= i < j < |order| ==> order[i] != order[j]
    ensures SeqSet(order[..k + 1]) == SeqSet(order[..k]) + {order[k]} && order[k] !in SeqSet(order[..k])
  {
    assert order[..k + 1] == order[..k] + [order[k]];
  }

  method CalculateSummaryCounters(rows: Rows, b: BatchId, order: seq<RowId>) returns (t: Tally)
    requires Lists(rows, b, order)
    ensures t == TallyRows(rows, b) && CountersFit(rows, b, t)
  {
    TallyFits(rows, b);
    t := Tally(0, 0, 0);
    for k := 0 to |order|
      invariant Counted(rows, SeqSet(order[..k]), t)
    {
      var r := order[k];
      ghost var ids := SeqSet(order[..k]);
      SeqSetMore(order, k);
      CountedOneMore(rows, ids, r, t);
      match rows[r].status {
        case Success => t := t.(nsuccess := t.nsuccess + 1);
        case Failed => t := t.(nfailed := t.nfailed + 1);
        case Aborted => t := t.(naborted := t.naborted + 1);
        case _ =>
      }
    }
    assert order[..|order|] == order;
  }

  predicate Counted(rows: Rows, ids: set<RowId>, t: Tally) {
    t == Tally(|WithStatus(rows, ids, Success)|, |WithStatus(rows, ids, Failed)|, |WithStatus(rows, ids, Aborted)|)
  }

  lemma CountedOneMore(rows: Rows, ids: set<RowId>, r: RowId, t: Tally)
    requires Counted(rows, ids, t) && r !in ids && r in rows
    ensures Counted(rows, ids + {r}, match rows[r].status
      case Success => t.(nsuccess := t.nsuccess + 1)
      case Failed => t.(nfailed := t.nfailed + 1)
      case Aborted => t.(naborted := t.naborted + 1)
      case _ => t)
  {
    WithStatusGrows(rows, ids, r, Success);
    WithStatusGrows(rows, ids, r, Failed);
    WithStatusGrows(rows, ids, r, Aborted);
  }

  lemma OneDecides(views: seq<Snap>, inits: set<BatchId>, b: BatchId, n: nat)
    requires 1 <= n <= |views| && forall k :: 0 <= k < n - 1 ==> Retryable(views[k], b)
    requires n < |views| ==> !Retryable(views[n - 1], b)
    ensures Due(views, inits, b) <==> DueAt(views, inits, b, n - 1)
  {
    forall k | 0 <= k < |views| && DueAt(views, inits, b, k)
      ensures k == n - 1
    {}
  }

  datatype Attempt = NotLocked | PendingRows | Broken | Done

  /**
   One instance with the tables and Redis keys it works on.  `tracked` maps an instance to its
   set of rows; an instance without a key has none.
   */
  class JobManager {
    const self: Instance
    var rows: Rows
    var batches: Batches
    var registry: set<Instance>
    var beating: set<Instance>
    var tracked: map<Instance, set<RowId>>

    constructor (self: Instance, rows: Rows, batches: Batches, registry: set<Instance>, beating: set<Instance>,
                 tracked: map<Instance, set<RowId>>)
      ensures this.self == self && this.rows == rows && this.batches == batches
      ensures this.registry == registry && this.beating == beating && this.tracked == tracked
    {
      this.self, this.rows, this.batches := self, rows, batches;
      this.registry, this.beating, this.tracked := registry, beating, tracked;
    }

    function Tracked(i: Instance): set<RowId>
      reads this`tracked
    {
      HeldBy(tracked, i)
    }

    // ------------------------------------------------------------ one row

    /** A result is written to the row and, for a slow query, to its batch; an error writes nothing. */
    method ProcessRow(r: RowId, o: Outcome) returns (err: Err)
      requires r in rows && rows[r].batch in batches
      modifies this`rows, this`batches
      ensures r in old(rows) && old(rows)[r].batch in old(batches)
      ensures o.Result? ==>
        var b := old(rows)[r].batch;
        && err == NoErr
        && rows == SetStatus(old(rows), r, o.st)
        && batches ==
             if old(rows)[r].line == 0 then old(batches)[b := old(batches)[b].(status := o.st, done := true)]
             else old(batches)
      ensures !o.Result? ==> rows == old(rows) && batches == old(batches)
      ensures o.Panic? ==> err == PanicErr
      ensures o.Config? ==> err == ConfigErr(o.scope)
    {
      match o {
        case Panic => err := PanicErr;
        case Config(scope) => err := ConfigErr(scope);
        case Result(st) =>
          err := NoErr;
          var b := rows[r].batch;
          rows := SetStatus(rows, r, st);
          if rows[r].line == 0 {
            batches := batches[b := batches[b].(status := st, done := true)];
          }
      }
    }

    /** A configuration error fails the pending rows of the batch and the batch, once for each key. */
    method HandleProcessingError(err: Err, r: RowId, keys: set<(BatchId, Scope)>) returns (keys': set<(BatchId, Scope)>)
      requires err != NoErr && r in rows && rows[r].batch in batches
      modifies this`rows, this`batches
      ensures r in old(rows) && old(rows)[r].batch in old(batches)
      ensures
        var b := old(rows)[r].batch;
        match err
        case PanicErr =>
          && keys' == keys && rows == SetStatus(old(rows), r, Failed)
          && batches ==
               (if old(rows)[r].line == 0 then old(batches)[b := old(batches)[b].(status := Failed, done := true)]
                else old(batches))
        case ConfigErr(scope) =>
          && keys' == keys + {(b, scope)}
          && ((b, scope) in keys ==> rows == old(rows) && batches == old(batches))
          && ((b, scope) !in keys ==>
                && rows == SetStatus(BulkFailed(old(rows), b), r, Failed)
                && batches == old(batches)[b := DbBatch(Failed, true, None)])
    {
      keys' := keys;
      var b := rows[r].batch;
      if err.ConfigErr? {
        var key := (b, err.scope);
        if key in keys {
          return;
        }
        keys' := keys + {key};
        rows := BulkFailed(rows, b);
        rows := SetStatus(rows, r, Failed);
        batches := batches[b := DbBatch(Failed, true, None)];
      } else {
        rows := SetStatus(rows, r, Failed);
        if rows[r].line == 0 {
          batches := batches[b := batches[b].(status := Failed, done := true)];
        }
      }
    }

    // ------------------------------------------------------------ one block

    /** The transaction that marks the block: queued batches and all rows of the block go inprog. */
    method ClaimBlock(block: seq<RowId>, ghost outcomes: map<RowId, Outcome>)
      requires Fetchable(rows, batches, block, outcomes)
      modifies this`rows, this`batches
      ensures rows == RowsAfter(old(rows), block, [], outcomes)
      ensures batches == BatchesAfter(old(rows), old(batches), block, [], outcomes)
      ensures rows.Keys == old(rows).Keys && batches.Keys == old(batches).Keys
      ensures forall r :: r in rows && r in block ==> rows[r] == old(rows)[r].(status := Inprog)
      ensures forall r :: r in rows && r !in block ==> rows[r] == old(rows)[r]
      ensures forall b :: b in batches && old(batches)[b].status.Queued? && InBlock(old(rows), block, b) ==>
                batches[b] == old(batches)[b].(status := Inprog)
      ensures forall b :: b in batches && !(old(batches)[b].status.Queued? && InBlock(old(rows), block, b)) ==>
                batches[b] == old(batches)[b]
    {
      var batchIds: set<BatchId> := {};
      var rowIds: set<RowId> := {};
      for k := 0 to |block|
        invariant rows == old(rows) && batches == old(batches) && rowIds == SeqSet(block[..k])
        invariant forall b :: b in batchIds <==>
            b in batches && batches[b].status.Queued? && InBlock(rows, block[..k], b)
      {
        assert block[k] in block && block[..k + 1] == block[..k] + [block[k]];
        var b := rows[block[k]].batch;
        if batches[b].status.Queued? {
          batchIds := batchIds + {b};
        }
        forall c { InBlockGrows(rows, block, k, c); }
        rowIds := rowIds + {block[k]};
      }
      assert block[..|block|] == block;
      ClaimedTables(rows, batches, block, outcomes, rowIds, batchIds);
      batches := StartBulk(batches, batchIds);
      rows := MarkAll(rows, rowIds, Inprog);
    }

    method TrackBlock(block: seq<RowId>)
      modifies this`tracked
      ensures Tracked(self) == old(Tracked(self)) + SeqSet(block)
      ensures forall i :: i != self ==> Tracked(i) == old(Tracked(i))
    {
      for k := 0 to |block|
        invariant Tracked(self) == old(Tracked(self)) + SeqSet(block[..k])
        invariant forall i :: i != self ==> Tracked(i) == old(Tracked(i))
      {
        assert block[..k + 1] == block[..k] + [block[k]];
        tracked := tracked[self := Tracked(self) + {block[k]}];
      }
      assert block[..|block|] == block;
    }

    /** Process, untrack and, after an error, handle one row. */
    method IterateRow(r: RowId, o: Outcome, keys: set<(BatchId, Scope)>) returns (keys': set<(BatchId, Scope)>)
      requires r in rows && rows[r].batch in batches
      modifies this`rows, this`batches, this`tracked
      ensures r in old(rows) && old(rows)[r].batch in old(batches)
      ensures (rows, batches) == Iterated(old(rows), old(batches), HasKey(keys, old(rows)[r].batch, o), r, o)
      ensures keys' == keys + (if o.Config? then {(old(rows)[r].batch, o.scope)} else {})
      ensures Tracked(self) == old(Tracked(self)) - {r}
      ensures forall i :: i != self ==> Tracked(i) == old(Tracked(i))
    {
      var err := ProcessRow(r, o);
      tracked := tracked[self := Tracked(self) - {r}];
      keys' := keys;
      if err != NoErr {
        keys' := HandleProcessingError(err, r, keys);
      }
    }

    /** The loop over the block, with the error keys it has handled. */
    method ProcessBlock(block: seq<RowId>, outcomes: map<RowId, Outcome>, ghost rows0: Rows, ghost batches0: Batches)
      requires Fetchable(rows0, batches0, block, outcomes)
      requires rows == RowsAfter(rows0, block, [], outcomes)
      requires batches == BatchesAfter(rows0, batches0, block, [], outcomes)
      modifies this`rows, this`batches, this`tracked
      ensures forall q :: q in block ==> q in rows0 && q in outcomes
      ensures rows == RowsAfter(rows0, block, block, outcomes)
      ensures batches == BatchesAfter(rows0, batches0, block, block, outcomes)
      ensures Tracked(self) == old(Tracked(self)) - SeqSet(block)
      ensures forall i :: i != self ==> Tracked(i) == old(Tracked(i))
    {
      var keys: set<(BatchId, Scope)> := {};
      NoneOf(block);
      for k := 0 to |block|
        invariant Stage(rows0, batches0, block, k, outcomes, rows, batches, keys)
        invariant Tracked(self) == old(Tracked(self)) - SeqSet(block[..k])
        invariant forall i :: i != self ==> Tracked(i) == old(Tracked(i))
      {
        StageNext(rows0, batches0, block, k, outcomes, rows, batches, keys);
        OneLess(old(Tracked(self)), block, k);
        keys := IterateRow(block[k], outcomes[block[k]], keys);
      }
      AllOf(block);
    }

    method BatchesOfBlock(block: seq<RowId>) returns (ids: set<BatchId>)
      requires forall k :: 0 <= k < |block| ==> block[k] in rows
      ensures forall b :: b in ids <==> InBlock(rows, block, b)
    {
      ids := {};
      for k := 0 to |block|
        invariant rows == old(rows) && forall b :: b in ids <==> InBlock(rows, block[..k], b)
      {
        assert block[k] in block;
        forall b { InBlockGrows(rows, block, k, b); }
        ids := ids + {rows[block[k]].batch};
      }
      assert block[..|block|] == block;
    }

    /** From the claim to the batches to summarise, for a block that is not empty. */
    method RunBlock(block: seq<RowId>, outcomes: map<RowId, Outcome>) returns (toSummarise: set<BatchId>)
      requires Fetchable(rows, batches, block, outcomes)
      modifies this`rows, this`batches, this`tracked
      ensures forall r :: r in block ==> r in old(rows) && r in outcomes
      ensures rows == RowsAfter(old(rows), block, block, outcomes)
      ensures batches == BatchesAfter(old(rows), old(batches), block, block, outcomes)
      ensures Tracked(self) == old(Tracked(self)) - SeqSet(block)
      ensures forall i :: i != self ==> Tracked(i) == old(Tracked(i))
      ensures forall b :: b in toSummarise <==> InBlock(old(rows), block, b)
    {
      ghost var rows0, batches0 := rows, batches;
      ClaimBlock(block, outcomes);
      TrackBlock(block);
      ProcessBlock(block, outcomes, rows0, batches0);
      forall k | 0 <= k < |block|
        ensures block[k] in rows
      {
        var r := block[k];
        assert r in block && r in rows0;
      }
      toSummarise := BatchesOfBlock(block);
    }

    /**
     RunOneIterationWithContext without interruption: `block` is what FetchBlockOfRows returned,
     `outcomes` what processing each row does.  `toSummarise` goes to summarizeCompletedBatches.
     */
    method RunOneIteration(block: seq<RowId>, outcomes: map<RowId, Outcome>)
      returns (worked: bool, toSummarise: set<BatchId>)
      requires Fetchable(rows, batches, block, outcomes)
      modifies this`rows, this`batches, this`tracked
      ensures worked <==> block != []
      ensures forall r :: r in block ==> r in old(rows) && r in outcomes
      ensures rows == RowsAfter(old(rows), block, block, outcomes)
      ensures batches == BatchesAfter(old(rows), old(batches), block, block, outcomes)
      ensures Tracked(self) == old(Tracked(self)) - SeqSet(block)
      ensures forall i :: i != self ==> Tracked(i) == old(Tracked(i))
      ensures forall b :: b in toSummarise <==> InBlock(old(rows), block, b)
      ensures forall r :: r in block ==> r in rows && Terminal(rows[r].status)
      ensures rows.Keys == old(rows).Keys && batches.Keys == old(batches).Keys
      ensures forall r :: r in rows ==> RowFinished(old(rows), block, outcomes, r, rows[r])
      ensures forall b :: b in batches ==> BatchFinished(old(rows), old(batches), block, outcomes, b, batches[b])
      ensures forall r :: r in rows && r !in block && rows[r] != old(rows)[r] ==>
                Pending(old(rows)[r].status) && rows[r].status.Failed?
    {
      BlockCompletes(rows, batches, block, outcomes);
      if |block| == 0 {
        ClaimedTables(rows, batches, block, outcomes, {}, {});
        return false, {};
      }
      worked := true;
      toSummarise := RunBlock(block, outcomes);
    }

    // ------------------------------------------------------------ summaries

    /**
     One transaction around summarizeBatch.  An error after the summary has been written
     (no initialiser for MarkDone) rolls the transaction back.
     */
    method SummarizeBatch(b: BatchId, lockFree: bool, inits: set<BatchId>, order: seq<RowId>)
      returns (res: Attempt, marked: bool)
      requires Lists(rows, b, order)
      modifies this`batches
      ensures res.NotLocked? <==> !lockFree
      ensures res.PendingRows? <==> lockFree && OnlyInprog(rows, old(batches), b)
      ensures res.Broken? <==>
        lockFree && (b !in old(batches) || (!old(batches)[b].done && NonePending(rows, b) && b !in inits))
      ensures marked <==> lockFree && Ready(rows, old(batches), inits, b)
      ensures marked ==> res.Done? && b in batches && SummaryFits(rows, b, batches[b])
      ensures batches == if marked then old(batches)[b := SummaryOf(rows, b)] else old(batches)
    {
      marked := false;
      SummaryIsFit(rows, b);
      if !lockFree { return NotLocked, false; }
      if b !in batches { return Broken, false; }
      if batches[b].done { return Done, false; }
      if |WithStatus(rows, InBatch(rows, b), Queued)| > 0 { return Done, false; }
      if |WithStatus(rows, InBatch(rows, b), Inprog)| > 0 { return PendingRows, false; }
      var counters := CalculateSummaryCounters(rows, b, order);
      var before := batches;
      batches := batches[b := DbBatch(DetermineBatchStatus(counters), true, Some(counters))];
      if b !in inits {
        batches := before;
        return Broken, false;
      }
      return Done, true;
    }

    /**
     Up to five transactions, each on the tables as the other workers have left them by then: the
     first attempt that neither misses the lock nor sees only rows in process decides.
     */
    method SummarizeWithRetries(b: BatchId, inits: set<BatchId>, views: seq<Snap>) returns (done: bool, attempts: nat)
      requires Attempts(views, b)
      modifies this`rows, this`batches
      ensures 1 <= attempts <= 5
      ensures forall k :: 0 <= k < attempts - 1 ==> Retryable(views[k], b)
      ensures attempts < 5 ==> !Retryable(views[attempts - 1], b)
      ensures done <==> DueAt(views, inits, b, attempts - 1)
      ensures done <==> Due(views, inits, b)
      ensures rows == views[attempts - 1].rows && batches == AfterAttempt(views[attempts - 1], inits, b)
    {
      var retrying := true;
      attempts, done := 0, false;
      while retrying && attempts < MAX_RETRIES
        invariant 0 <= attempts <= MAX_RETRIES && (attempts == 0 ==> retrying && !done)
        invariant forall k :: 0 <= k < attempts - 1 ==> Retryable(views[k], b)
        invariant attempts > 0 ==>
                    && (retrying <==> Retryable(views[attempts - 1], b))
                    && (done <==> Serves(views[attempts - 1], inits, b))
                    && rows == views[attempts - 1].rows && batches == AfterAttempt(views[attempts - 1], inits, b)
        decreases MAX_RETRIES - attempts
      {
        rows, batches := views[attempts].rows, views[attempts].batches;
        var res, marked := SummarizeBatch(b, views[attempts].lockFree, inits, views[attempts].order);
        done := marked;
        retrying := res.NotLocked? || res.PendingRows?;
        attempts := attempts + 1;
      }
      OneDecides(views, inits, b, attempts);
    }

    /**
     summarizeCompletedBatches: a batch gets a summary exactly when its deciding attempt finds it
     ready, and then that of the rows this attempt sees; MarkDone is called once for each batch
     that gets one and for no other.
     */
    method SummarizeCompletedBatches(ids: set<BatchId>, inits: set<BatchId>, views: map<BatchId, seq<Snap>>)
      returns (written: map<BatchId, DbBatch>, marks: multiset<BatchId>)
      requires forall b :: b in ids ==> b in views && Attempts(views[b], b)
      modifies this`rows, this`batches
      ensures forall b :: b in written <==> b in ids && Due(views[b], inits, b)
      ensures forall b :: b in written ==>
                exists k :: 0 <= k < |views[b]| && DueAt(views[b], inits, b, k)
                            && written[b] == SummaryOf(views[b][k].rows, b)
      ensures forall b :: b in written ==>
                exists k :: 0 <= k < |views[b]| && DueAt(views[b], inits, b, k)
                            && SummaryFits(views[b][k].rows, b, written[b])
      ensures forall b :: marks[b] == if b in written then 1 else 0
      ensures ids == {} ==> rows == old(rows) && batches == old(batches)
    {
      var todo := ids;
      ghost var seen: set<BatchId> := {};
      written, marks := map[], multiset{};
      while todo != {}
        invariant seen !! todo && forall b :: b in ids <==> b in seen || b in todo
        invariant forall b :: b in written <==> b in seen && Due(views[b], inits, b)
        invariant forall b :: b in written ==>
                    exists k :: 0 <= k < |views[b]| && DueAt(views[b], inits, b, k)
                                && written[b] == SummaryOf(views[b][k].rows, b)
        invariant forall b :: marks[b] == if b in written then 1 else 0
        invariant ids == {} ==> rows == old(rows) && batches == old(batches)
      {
        var b := PickOne(todo);
        var done, attempts := SummarizeWithRetries(b, inits, views[b]);
        if done {
          assert DueAt(views[b], inits, b, attempts - 1) && batches[b] == SummaryOf(views[b][attempts - 1].rows, b);
          written := written[b := batches[b]];
          marks := marks + multiset{b};
        }
        todo := todo - {b};
        seen := seen + {b};
      }
      forall b | b in written
        ensures exists k :: 0 <= k < |views[b]| && DueAt(views[b], inits, b, k)
                            && SummaryFits(views[b][k].rows, b, written[b])
      {
        var k :| 0 <= k < |views[b]| && DueAt(views[b], inits, b, k) && written[b] == SummaryOf(views[b][k].rows, b);
        SummaryIsFit(views[b][k].rows, b);
      }
    }

    // ------------------------------------------------------------ recovery

    /** Resets the dead instance's inprog rows, then deletes its set. */
    method RecoverRowsFromDeadInstance(d: Instance) returns (n: nat)
      modifies this`rows, this`tracked
      ensures n == |old(Tracked(d))|
      ensures rows.Keys == old(rows).Keys
      ensures forall r :: r in rows && r in old(Tracked(d)) && old(rows)[r].status.Inprog? ==>
                rows[r] == old(rows)[r].(status := Queued)
      ensures forall r :: r in rows && !(r in old(Tracked(d)) && old(rows)[r].status.Inprog?) ==>
                rows[r] == old(rows)[r]
      ensures rows == Requeued(old(rows), old(Tracked(d)))
      ensures tracked == old(tracked) - {d}
    {
      var ids := Tracked(d);
      if ids == {} {
        tracked := tracked - {d};
        assert rows == Requeued(rows, {});
        return 0;
      }
      rows := Requeued(rows, ids);
      tracked := tracked - {d};
      return |ids|;
    }

    /** Every registered instance without a heartbeat, other than this one, loses its rows and its entry. */
    method RecoverAbandonedRows() returns (total: nat)
      modifies this`rows, this`tracked, this`registry
      ensures
        var dead := old(registry) - old(beating) - {self};
        && rows == Requeued(old(rows), Abandoned(old(rows), old(tracked), dead))
        && tracked == old(tracked) - dead
        && registry == old(registry) - dead
        && |Abandoned(old(rows), old(tracked), dead)| <= total && total == SumHeld(old(tracked), dead)
      ensures rows.Keys == old(rows).Keys
      ensures forall r, d :: r in rows && old(rows)[r].status.Inprog? && d in old(registry) && d !in old(beating) &&
                             d != self && d in old(tracked) && r in old(tracked)[d] ==>
                rows[r] == old(rows)[r].(status := Queued)
      ensures forall r :: r in rows && rows[r] != old(rows)[r] ==>
                && old(rows)[r].status.Inprog? && rows[r] == old(rows)[r].(status := Queued)
                && exists d :: d in old(registry) && d !in old(beating) && d != self && r in HeldBy(old(tracked), d)
    {
      ghost var rows0, held := rows, tracked;
      var todo, registry0 := registry, registry;
      ghost var dead: set<Instance> := {};
      total := 0;
      assert Abandoned(rows0, held, {}) == {};
      while todo != {}
        invariant beating == old(beating) && todo <= registry0
        invariant forall d :: d in dead <==> d in registry0 && d !in todo && d !in beating && d != self
        invariant forall d :: d in tracked <==> d in held && d !in dead
        invariant forall d :: d in tracked ==> tracked[d] == held[d]
        invariant forall d :: d in registry <==> d in registry0 && d !in dead
        invariant rows == Requeued(rows0, Abandoned(rows0, held, dead)) && |Abandoned(rows0, held, dead)| <= total
        invariant total == SumHeld(held, dead)
      {
        var i := PickOne(todo);
        todo := todo - {i};
        if i == self { continue; }
        if i in beating { continue; }
        AbandonedStep(rows0, held, dead, i);
        var n := RecoverRowsFromDeadInstance(i);
        total := total + n;
        SumHeldOf(held, dead + {i}, i);
        assert dead + {i} - {i} == dead;
        registry := registry - {i};
        dead := dead + {i};
      }
      ghost var gone := registry0 - beating - {self};
      forall d
        ensures d in dead <==> d in gone
      {}
      assert dead == gone;
      forall d
        ensures d in registry <==> d in registry0 - gone
      {}
      WithoutKeys(held, tracked, gone);
    }
  }

  lemma WithoutKeys(held: map<Instance, set<RowId>>, kept: map<Instance, set<RowId>>, gone: set<Instance>)
    requires forall d :: d in kept <==> d in held && d !in gone
    requires forall d :: d in kept ==> kept[d] == held[d]
    ensures kept == held - gone
  {
    var left := held - gone;
    forall d
      ensures d in kept <==> d in left
    {}
    assert kept.Keys == left.Keys;
    forall d | d in kept
      ensures kept[d] == left[d]
    {}
  }
}
