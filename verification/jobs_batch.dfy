/**
 The calls of a batch's owner: BatchSubmit, BatchAppend, WaitOff and BatchAbort on the tables.
 Each is proved against the tables it leaves, errors included, and the successful calls are the
 caller steps of the protocol.
 */
module BatchCalls {
  import opened BatchProtocol
  import M = JobManagers
  import R = BatchRefinement

  datatype CallError = BatchNotFound | NotWaiting | InvalidLine(line: int) | NothingPending

  datatype CallResult<+T> = Ok(value: T) | Err(error: CallError)

  // ---------------------------------------------------------------- tables

  /** int32(x): the low 32 bits, read with a sign. */
  function Int32(x: int): int {
    (x + 0x8000_0000) % 0x1_0000_0000 - 0x8000_0000
  }

  /** A line is stored as it is exactly if it fits into 32 bits. */
  lemma LineKept(x: int)
    ensures -0x8000_0000 <= Int32(x) < 0x8000_0000 && (Int32(x) - x) % 0x1_0000_0000 == 0
    ensures Int32(x) == x <==> -0x8000_0000 <= x < 0x8000_0000
  {
  }

  /** The rows of the batch with the given ids and lines, all queued. */
  function NewRows(b: BatchId, ids: seq<RowId>, lines: seq<int>): M.Rows
    requires |ids| == |lines|
  {
    if ids == [] then map[]
    else var n := |ids| - 1; NewRows(b, ids[..n], lines[..n])[ids[n] := M.DbRow(b, Int32(lines[n]), Queued)]
  }

  /** Row ids come from a sequence of the database: new and distinct. */
  ghost predicate NewIds(rows: M.Rows, ids: seq<RowId>) {
    (forall k :: 0 <= k < |ids| ==> ids[k] !in rows) && forall k, m :: 0 <= k < m < |ids| ==> ids[k] != ids[m]
  }

  predicate PositiveLines(lines: seq<int>) {
    forall k :: 0 <= k < |lines| ==> lines[k] > 0
  }

  function PendingRows(rows: M.Rows, b: BatchId): set<RowId> {
    set r | r in rows && rows[r].batch == b && Pending(rows[r].status)
  }

  function AbortedRows(rows: M.Rows, b: BatchId): M.Rows {
    M.MarkAll(rows, PendingRows(rows, b), Aborted)
  }

  /** UpdateBatchStatus without further values: the other columns become null. */
  function Released(batches: M.Batches, b: BatchId): M.Batches {
    batches[b := M.DbBatch(Queued, false, None)]
  }

  lemma {:induction false} NewRowsHold(b: BatchId, ids: seq<RowId>, lines: seq<int>, r: RowId)
    requires |ids| == |lines|
    ensures r in NewRows(b, ids, lines) <==> r in ids
    ensures r in NewRows(b, ids, lines) ==>
        NewRows(b, ids, lines)[r].batch == b && NewRows(b, ids, lines)[r].status == Queued
  {
    if ids != [] {
      var n := |ids| - 1;
      NewRowsHold(b, ids[..n], lines[..n], r);
      assert ids == ids[..n] + [ids[n]];
    }
  }

  /** The row is there, queued, with this line, or with the low 32 bits of it. */
  predicate Stored(after: M.Rows, b: BatchId, id: RowId, line: int) {
    && id in after && after[id].batch == b && after[id].status == Queued
    && (line - after[id].line) % 0x1_0000_0000 == 0
    && (-0x8000_0000 <= line < 0x8000_0000 ==> after[id] == M.DbRow(b, line, Queued))
  }

  /** Row k of the input is row ids[k] of the table, with its own line, and no other row is new or changed. */
  ghost predicate Inserted(before: M.Rows, after: M.Rows, b: BatchId, ids: seq<RowId>, lines: seq<int>)
    requires |ids| == |lines|
  {
    && (forall k :: 0 <= k < |ids| ==> Stored(after, b, ids[k], lines[k]))
    && (forall r :: r in before ==> r in after && after[r] == before[r])
    && (forall r :: r in after ==> r in before || r in ids)
  }

  /** Each new row has its own line. */
  lemma {:induction false} NewRowAt(b: BatchId, ids: seq<RowId>, lines: seq<int>, k: nat)
    requires |ids| == |lines| && k < |ids| && forall i, j :: 0 <= i < j < |ids| ==> ids[i] != ids[j]
    ensures ids[k] in NewRows(b, ids, lines) && NewRows(b, ids, lines)[ids[k]] == M.DbRow(b, Int32(lines[k]), Queued)
  {
    var n := |ids| - 1;
    if k < n {
      assert ids[k] != ids[n];
      NewRowAt(b, ids[..n], lines[..n], k);
    }
  }

  lemma NewRowsIn(rows: M.Rows, b: BatchId, ids: seq<RowId>, lines: seq<int>, k: nat)
    requires |ids| == |lines| && NewIds(rows, ids) && k < |ids|
    ensures Stored(rows + NewRows(b, ids, lines), b, ids[k], lines[k])
  {
    NewRowAt(b, ids, lines, k);
    LineKept(lines[k]);
  }

  lemma OldRowsStay(rows: M.Rows, b: BatchId, ids: seq<RowId>, lines: seq<int>, r: RowId)
    requires |ids| == |lines| && NewIds(rows, ids)
    ensures var after := rows + NewRows(b, ids, lines);
      && (r in rows ==> r in after && after[r] == rows[r])
      && (r in after ==> r in rows || r in ids)
  {
    NewRowsHold(b, ids, lines, r);
  }

  lemma RowsInserted(rows: M.Rows, b: BatchId, ids: seq<RowId>, lines: seq<int>)
    requires |ids| == |lines| && NewIds(rows, ids)
    ensures Inserted(rows, rows + NewRows(b, ids, lines), b, ids, lines)
  {
    var after := rows + NewRows(b, ids, lines);
    forall k | 0 <= k < |ids|
      ensures Stored(after, b, ids[k], lines[k])
    {
      NewRowsIn(rows, b, ids, lines, k);
    }
    forall r
      ensures (r in rows ==> r in after && after[r] == rows[r]) && (r in after ==> r in rows || r in ids)
    {
      OldRowsStay(rows, b, ids, lines, r);
    }
  }

  /** A line of 2^32 passes the check of BatchAppend and is stored as 0, which marks a slow query. */
  lemma LargeLineIsLost(b: BatchId, r: RowId)
    ensures PositiveLines([0x1_0000_0000])
    ensures NewRows(b, [r], [0x1_0000_0000]) == map[r := M.DbRow(b, 0, Queued)]
  {
    assert [r][..0] == [] && [0x1_0000_0000][..0] == [];
    assert NewRows(b, [], []) == map[];
  }

  // ---------------------------------------------------------------- the calls

  class BatchApi {
    var rows: M.Rows
    var batches: M.Batches

    constructor (rows: M.Rows, batches: M.Batches)
      ensures this.rows == rows && this.batches == batches
    {
      this.rows, this.batches := rows, batches;
    }

    /** One transaction; the line numbers are not checked. */
    method BatchSubmit(b: BatchId, ids: seq<RowId>, lines: seq<int>, waitabit: bool)
      requires b !in batches && |ids| == |lines| && NewIds(rows, ids)
      modifies this
      ensures rows == old(rows) + NewRows(b, ids, lines) && Inserted(old(rows), rows, b, ids, lines)
      ensures batches == old(batches)[b := M.DbBatch(if waitabit then Wait else Queued, false, None)]
    {
      var status := Queued;
      if waitabit {
        status := Wait;
      }
      batches := batches[b := M.DbBatch(status, false, None)];
      var inserted: M.Rows := map[];
      for k := 0 to |ids|
        invariant rows == old(rows)
        invariant batches == old(batches)[b := M.DbBatch(if waitabit then Wait else Queued, false, None)]
        invariant inserted == NewRows(b, ids[..k], lines[..k])
      {
        assert ids[..k + 1][..k] == ids[..k] && lines[..k + 1][..k] == lines[..k];
        inserted := inserted[ids[k] := M.DbRow(b, Int32(lines[k]), Queued)];
      }
      assert ids[..|ids|] == ids && lines[..|lines|] == lines;
      RowsInserted(rows, b, ids, lines);
      rows := rows + inserted;
    }

    /** Only a batch in wait takes more rows; a line that is not positive undoes the whole call. */
    method BatchAppend(b: BatchId, ids: seq<RowId>, lines: seq<int>, waitabit: bool) returns (r: CallResult<nat>)
      requires |ids| == |lines| && NewIds(rows, ids)
      modifies this
      ensures r.Ok? <==> b in old(batches) && old(batches)[b].status.Wait? && PositiveLines(lines)
      ensures r.Ok? ==> rows == old(rows) + NewRows(b, ids, lines) && r.value == |M.InBatch(rows, b)|
      ensures r.Ok? ==> Inserted(old(rows), rows, b, ids, lines)
      ensures r.Ok? ==> batches == if waitabit then old(batches) else Released(old(batches), b)
      ensures r.Ok? && !waitabit ==> b in batches && batches[b] == M.DbBatch(Queued, false, None)
      ensures r == Err(BatchNotFound) <==> b !in old(batches)
      ensures r == Err(NotWaiting) <==> b in old(batches) && !old(batches)[b].status.Wait?
      ensures r.Err? ==> rows == old(rows) && batches == old(batches)
      ensures r.Err? && r.error.InvalidLine? ==>
                exists k :: 0 <= k < |lines| && lines[k] == r.error.line <= 0 && PositiveLines(lines[..k])
    {
      if b !in batches {
        return Err(BatchNotFound);
      }
      if !batches[b].status.Wait? {
        return Err(NotWaiting);
      }
      var inserted: M.Rows := map[];
      for k := 0 to |lines|
        invariant rows == old(rows) && batches == old(batches)
        invariant inserted == NewRows(b, ids[..k], lines[..k]) && PositiveLines(lines[..k])
      {
        if lines[k] <= 0 {
          return Err(InvalidLine(lines[k]));
        }
        assert ids[..k + 1][..k] == ids[..k] && lines[..k + 1][..k] == lines[..k];
        inserted := inserted[ids[k] := M.DbRow(b, Int32(lines[k]), Queued)];
      }
      assert ids[..|ids|] == ids && lines[..|lines|] == lines;
      RowsInserted(rows, b, ids, lines);
      rows := rows + inserted;
      if !waitabit {
        batches := Released(batches, b);
      }
      return Ok(|M.InBatch(rows, b)|);
    }

    /** Releases a batch in wait; a queued batch is left as it is. */
    method WaitOff(b: BatchId) returns (r: CallResult<nat>)
      modifies this`batches
      ensures r.Ok? <==> b in old(batches) && (old(batches)[b].status.Wait? || old(batches)[b].status.Queued?)
      ensures r.Ok? ==> r.value == |M.InBatch(rows, b)|
      ensures batches ==
        if b in old(batches) && old(batches)[b].status.Wait? then Released(old(batches), b) else old(batches)
      ensures b in old(batches) && old(batches)[b].status.Wait? ==>
                b in batches && batches[b] == M.DbBatch(Queued, false, None)
      ensures r == Err(BatchNotFound) <==> b !in old(batches)
    {
      if b !in batches {
        return Err(BatchNotFound);
      }
      if batches[b].status.Queued? {
        return Ok(|M.InBatch(rows, b)|);
      }
      if !batches[b].status.Wait? {
        return Err(NotWaiting);
      }
      batches := Released(batches, b);
      return Ok(|M.InBatch(rows, b)|);
    }

    /**
     Aborts the pending rows and counts all rows of the batch.  A finished batch is left alone;
     one without pending rows is an error.  `order` lists the rows as the query returns them.
     */
    method BatchAbort(b: BatchId, order: seq<RowId>) returns (r: CallResult<M.DbBatch>)
      requires M.Lists(rows, b, order)
      modifies this
      ensures r.Ok? <==> b in old(batches) && (Terminal(old(batches)[b].status) || PendingRows(old(rows), b) != {})
      ensures r.Ok? ==> b in batches && r.value == batches[b]
      ensures r.Ok? && !Terminal(old(batches)[b].status) ==>
                && rows == AbortedRows(old(rows), b) && rows.Keys == old(rows).Keys
                && (forall q :: q in rows && rows[q].batch == b && Pending(old(rows)[q].status) ==>
                      rows[q] == old(rows)[q].(status := Aborted))
                && (forall q :: q in rows && !(rows[q].batch == b && Pending(old(rows)[q].status)) ==>
                      rows[q] == old(rows)[q])
                && r.value.status == Aborted && r.value.done
                && r.value.counts.Some? && M.CountersFit(rows, b, r.value.counts.value)
                && batches == old(batches)[b := M.DbBatch(Aborted, true, Some(M.TallyRows(rows, b)))]
      ensures r.Err? || Terminal(old(batches)[b].status) ==> rows == old(rows) && batches == old(batches)
    {
      if b !in batches {
        return Err(BatchNotFound);
      }
      if Terminal(batches[b].status) {
        return Ok(batches[b]);
      }
      var pending := PendingRows(rows, b);
      if |pending| == 0 {
        return Err(NothingPending);
      }
      rows := M.MarkAll(rows, pending, Aborted);
      SameRows(old(rows), rows, b);
      M.TallyFits(rows, b);
      var t := Tally(0, 0, 0);
      for k := 0 to |order|
        invariant rows == AbortedRows(old(rows), b) && batches == old(batches)
        invariant M.Counted(rows, M.SeqSet(order[..k]), t)
      {
        ghost var ids := M.SeqSet(order[..k]);
        M.SeqSetMore(order, k);
        M.CountedOneMore(rows, ids, order[k], t);
        match rows[order[k]].status {
          case Success => t := t.(nsuccess := t.nsuccess + 1);
          case Failed => t := t.(nfailed := t.nfailed + 1);
          case Aborted => t := t.(naborted := t.naborted + 1);
          case _ =>
        }
      }
      assert order[..|order|] == order;
      batches := batches[b := M.DbBatch(Aborted, true, Some(t))];
      return Ok(batches[b]);
    }
  }

  lemma SameRows(before: M.Rows, after: M.Rows, b: BatchId)
    requires after == AbortedRows(before, b)
    ensures after.Keys == before.Keys && M.InBatch(after, b) == M.InBatch(before, b)
  {
    forall r
      ensures r in M.InBatch(after, b) <==> r in M.InBatch(before, b)
    {}
  }

  // ---------------------------------------------------------------- calls are steps

  /** A successful abort is the step Abort: same rows, same record, counters that tally. */
  lemma AbortIsStep(s: State, b: BatchId)
    requires CallerEnabled(s, Abort(b))
    ensures var t := ApplyCaller(s, Abort(b));
      var rows := AbortedRows(R.RowsView(s.rows), b);
      && R.RowsView(t.rows) == rows
      && R.BatchesView(t.batches) == R.BatchesView(s.batches)[b := M.DbBatch(Aborted, true, Some(M.TallyRows(rows, b)))]
      && PendingRows(rows, b) == {}
  {
    var t := ApplyCaller(s, Abort(b));
    var rows := AbortedRows(R.RowsView(s.rows), b);
    forall r
      ensures r in PendingIn(s.rows, b) <==> r in PendingRows(R.RowsView(s.rows), b)
    {}
    assert R.RowsView(t.rows) == rows;
    R.SameTally(t.rows, b);
    forall r
      ensures r !in PendingRows(rows, b)
    {}
  }

  /** The lines are positive as they are stored. */
  predicate StoredPositive(lines: seq<int>) {
    forall k :: 0 <= k < |lines| ==> Int32(lines[k]) > 0
  }

  /** The step gets each row with its own line. */
  ghost predicate Given(ids: seq<RowId>, lines: seq<int>, given: map<RowId, int>)
    requires |ids| == |lines|
  {
    && (forall k :: 0 <= k < |ids| ==>
          && ids[k] in given && (lines[k] - given[ids[k]]) % 0x1_0000_0000 == 0
          && (0 < lines[k] < 0x8000_0000 ==> given[ids[k]] == lines[k]))
    && forall r :: r in given ==> r in ids
  }

  lemma LinesAreGiven(b: BatchId, ids: seq<RowId>, lines: seq<int>, given: map<RowId, int>)
    requires |ids| == |lines| && forall i, j :: 0 <= i < j < |ids| ==> ids[i] != ids[j]
    requires forall r :: r in given <==> r in NewRows(b, ids, lines)
    requires forall r :: r in given ==> NewRows(b, ids, lines)[r] == M.DbRow(b, given[r], Queued)
    ensures Given(ids, lines, given)
  {
    forall k | 0 <= k < |ids|
      ensures ids[k] in given && given[ids[k]] == Int32(lines[k]) && (lines[k] - Int32(lines[k])) % 0x1_0000_0000 == 0
      ensures 0 < lines[k] < 0x8000_0000 ==> Int32(lines[k]) == lines[k]
    {
      NewRowAt(b, ids, lines, k);
      LineKept(lines[k]);
    }
    forall r | r in given
      ensures r in ids
    {
      NewRowsHold(b, ids, lines, r);
    }
  }

  lemma SubmittedView(batches: map<BatchId, Batch>, b: BatchId, st: Status)
    ensures R.BatchesView(batches[b := Batch(st, false, None, 0, 0, 0, {})]) ==
            R.BatchesView(batches)[b := M.DbBatch(st, false, None)]
  {
  }

  /** Submitting is the step Submit. */
  lemma SubmitIsStep(s: State, b: BatchId, ids: seq<RowId>, lines: seq<int>, waitabit: bool)
    returns (given: map<RowId, int>)
    requires b !in s.batches && |ids| == |lines| && NewIds(R.RowsView(s.rows), ids) && StoredPositive(lines)
    ensures CallerEnabled(s, Submit(b, given, waitabit)) && Given(ids, lines, given)
    ensures var t := ApplyCaller(s, Submit(b, given, waitabit));
      && R.RowsView(t.rows) == R.RowsView(s.rows) + NewRows(b, ids, lines)
      && R.BatchesView(t.batches) ==
           R.BatchesView(s.batches)[b := M.DbBatch(if waitabit then Wait else Queued, false, None)]
  {
    given := LinesOf(b, ids, lines);
    NewIdsKeep(s, b, ids, lines, given);
    LinesAreGiven(b, ids, lines, given);
    InsertedView(s.rows, b, ids, lines, given);
    SubmittedView(s.batches, b, if waitabit then Wait else Queued);
  }

  /** Appending to a batch in wait is the step Append. */
  lemma AppendIsStep(s: State, b: BatchId, ids: seq<RowId>, lines: seq<int>, waitabit: bool)
    returns (given: map<RowId, int>)
    requires b in s.batches && s.batches[b].status.Wait? && b !in s.sums
    requires |ids| == |lines| && NewIds(R.RowsView(s.rows), ids) && StoredPositive(lines)
    ensures CallerEnabled(s, Append(b, given, waitabit)) && Given(ids, lines, given)
    ensures var t := ApplyCaller(s, Append(b, given, waitabit));
      && R.RowsView(t.rows) == R.RowsView(s.rows) + NewRows(b, ids, lines)
      && R.BatchesView(t.batches) ==
           if waitabit then R.BatchesView(s.batches) else Released(R.BatchesView(s.batches), b)
  {
    given := LinesOf(b, ids, lines);
    NewIdsKeep(s, b, ids, lines, given);
    LinesAreGiven(b, ids, lines, given);
    InsertedView(s.rows, b, ids, lines, given);
  }

  /** Releasing a batch in wait is the step WaitOff; it adds no row and touches no other batch. */
  lemma WaitOffIsStep(s: State, b: BatchId)
    requires b in s.batches && s.batches[b].status.Wait? && b !in s.sums
    ensures CallerEnabled(s, WaitOff(b))
    ensures var t := ApplyCaller(s, WaitOff(b));
      && R.RowsView(t.rows) == R.RowsView(s.rows)
      && R.BatchesView(t.batches) == Released(R.BatchesView(s.batches), b)
      && forall r :: r in t.rows && t.rows[r].batch == b && t.rows[r].status.Queued? && b !in t.sums ==> Claimable(t, r)
  {
    var t := ApplyCaller(s, WaitOff(b));
    assert R.BatchesView(t.batches).Keys == Released(R.BatchesView(s.batches), b).Keys;
  }

  /** The lines by row id. */
  lemma LinesOf(b: BatchId, ids: seq<RowId>, lines: seq<int>) returns (given: map<RowId, int>)
    requires |ids| == |lines|
    ensures forall r :: r in given <==> r in NewRows(b, ids, lines)
    ensures forall r :: r in given ==> NewRows(b, ids, lines)[r] == M.DbRow(b, given[r], Queued)
  {
    var added := NewRows(b, ids, lines);
    given := map r | r in added :: added[r].line;
    forall r { NewRowsHold(b, ids, lines, r); }
  }

  lemma {:induction false} LinesPositive(b: BatchId, ids: seq<RowId>, lines: seq<int>, r: RowId)
    requires |ids| == |lines| && StoredPositive(lines) && r in NewRows(b, ids, lines)
    ensures NewRows(b, ids, lines)[r].line > 0
  {
    var n := |ids| - 1;
    if r != ids[n] { LinesPositive(b, ids[..n], lines[..n], r); }
  }

  lemma NewIdsKeep(s: State, b: BatchId, ids: seq<RowId>, lines: seq<int>, given: map<RowId, int>)
    requires |ids| == |lines| && NewIds(R.RowsView(s.rows), ids) && StoredPositive(lines)
    requires forall r :: r in given <==> r in NewRows(b, ids, lines)
    requires forall r :: r in given ==> NewRows(b, ids, lines)[r] == M.DbRow(b, given[r], Queued)
    ensures given.Keys !! s.rows.Keys && forall r :: r in given ==> given[r] > 0
  {
    forall r | r in given
      ensures r !in s.rows && given[r] > 0
    {
      NewRowsHold(b, ids, lines, r);
      var k :| 0 <= k < |ids| && ids[k] == r;
      LinesPositive(b, ids, lines, r);
    }
  }

  lemma InsertedView(rows: map<RowId, Row>, b: BatchId, ids: seq<RowId>, lines: seq<int>, given: map<RowId, int>)
    requires |ids| == |lines| && given.Keys !! rows.Keys
    requires forall r :: r in given <==> r in NewRows(b, ids, lines)
    requires forall r :: r in given ==> NewRows(b, ids, lines)[r] == M.DbRow(b, given[r], Queued)
    ensures R.RowsView(InsertRows(rows, b, given)) == R.RowsView(rows) + NewRows(b, ids, lines)
  {
    var t, u := R.RowsView(InsertRows(rows, b, given)), R.RowsView(rows) + NewRows(b, ids, lines);
    forall r
      ensures r in t <==> r in u
    {}
    forall r | r in t
      ensures t[r] == u[r]
    {}
  }
}
