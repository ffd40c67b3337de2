/** How often rows are claimed and run again: bounds over every interleaving. */
module BatchRework {
  import opened BatchProtocol
  import opened Collections
  import opened BatchStructure
  import NoLoss = BatchNoLoss
  import Cl = BatchClean
  import Own = BatchOwnership

  // ---------------------------------------------------------------- every run

  /** A queued row has been reset once for each claim; an inprog row has one claim outstanding. */
  predicate ClaimsOk(row: Row) {
    && (row.status.Queued? ==> row.claims == row.resets)
    && (row.status.Inprog? ==> row.claims == row.resets + 1)
    && row.claims <= row.resets + 1
  }

  ghost predicate AllClaimsOk(s: State) {
    forall r :: r in s.rows ==> ClaimsOk(s.rows[r])
  }

  lemma ClaimsStep(s: State, step: Step)
    requires Structure(s) && AllClaimsOk(s) && Enabled(s, step)
    ensures AllClaimsOk(Apply(s, step))
  {
    match step
    case InLoop(i, op) => ClaimsRow(s, i, op);
    case Summary(b, op) => SumFrame(s, b, op);
    case Recovery(op) => ClaimsRec(s, op);
    case Block(i, op) => ClaimsBlock(s, i, op);
    case Caller(c) => ClaimsCaller(s, c);
    case _ =>
  }

  lemma ClaimsCaller(s: State, c: CallerOp)
    requires AllClaimsOk(s) && CallerEnabled(s, c)
    ensures AllClaimsOk(ApplyCaller(s, c))
  {}

  lemma ClaimsBlock(s: State, i: Instance, op: BlockOp)
    requires AllClaimsOk(s) && BlockEnabled(s, i, op)
    ensures AllClaimsOk(ApplyBlock(s, i, op))
  {
    if op.Claim? {
      forall r | r in op.block ensures Claimable(s, r) {}
    }
  }

  lemma ClaimsRec(s: State, op: RecOp)
    requires AllClaimsOk(s) && RecEnabled(s, op)
    ensures AllClaimsOk(ApplyRec(s, op))
  {}

  lemma ClaimsRow(s: State, i: Instance, op: RowOp)
    requires AllClaimsOk(s) && RowEnabled(s, i, op)
    ensures AllClaimsOk(ApplyRow(s, i, op))
  {}

  lemma {:induction false} ClaimsRun(s: State, steps: seq<Step>, t: State)
    requires Structure(s) && AllClaimsOk(s) && Run(s, steps, t)
    ensures AllClaimsOk(t)
    decreases |steps|
  {
    if steps != [] {
      StepStructure(s, steps[0]);
      ClaimsStep(s, steps[0]);
      ClaimsRun(Apply(s, steps[0]), steps[1..], t);
    }
  }

  /** In every interleaving a row is claimed at most once more than it was effectively reset. */
  lemma ClaimsBounded(s: State, r: RowId)
    requires Reachable(s) && r in s.rows
    ensures s.rows[r].claims <= 1 + s.rows[r].resets
    ensures s.rows[r].status.Inprog? ==> s.rows[r].claims == 1 + s.rows[r].resets
  {
    var steps :| Run(Initial(s.chunk), steps, s);
    ClaimsRun(Initial(s.chunk), steps, s);
  }

  // ---------------------------------------------------------------- clean runs: totals

  function Waiting(s: State): set<RowId> {
    set r | r in s.rows && s.rows[r].status.Queued?
  }

  function ToRun(s: State): set<RowId> {
    set r | r in s.rows && s.rows[r].unrun
  }

  /** The inprog rows whose last claimer is d. */
  function Held(s: State, d: Instance): set<RowId> {
    set r | r in s.rows && s.rows[r].status.Inprog? && s.rows[r].owner == d
  }

  /** c rows for each of n crashes. */
  function Allowance(c: nat, n: nat): nat {
    if n == 0 then 0 else Allowance(c, n - 1) + c
  }

  lemma {:induction false} AllowanceIsProduct(c: nat, n: nat)
    ensures Allowance(c, n) == c * n
  {
    if n > 0 {
      AllowanceIsProduct(c, n - 1);
      assert c * n == c * (n - 1) + c;
    }
  }

  lemma {:induction false} AllowanceGrows(c: nat, m: nat, n: nat)
    requires m <= n
    ensures Allowance(c, m) <= Allowance(c, n)
    decreases n
  {
    if m < n {
      AllowanceGrows(c, m, n - 1);
    }
  }

  /** Conservation: claims are paid for by submitted rows and by resets, runs by claims. */
  ghost predicate TotalsOk(s: State) {
    && s.nclaims + |Waiting(s)| <= |s.rows| + s.nresets
    && s.nexecs + |ToRun(s)| <= s.nclaims
    && s.nresets <= Allowance(s.chunk, |s.recovered|)
  }

  ghost predicate HeldOk(s: State) {
    && (forall d :: d in s.insts ==> |Held(s, d)| <= s.chunk)
    && (forall r :: r in s.rows && s.rows[r].unrun ==> !s.rows[r].status.Queued?)
    && (forall d :: d in s.insts && s.insts[d].worker.Dead? ==> d in s.crashed)
    && (forall d :: d in s.crashed ==> d in s.insts && s.insts[d].worker.Dead?)
    && s.recovered <= s.crashed
    && (forall d :: d in s.recovered ==> s.insts[d].tracked == {})
  }

  ghost predicate Inv(s: State) {
    Cl.Inv(s) && HeldOk(s) && TotalsOk(s)
  }

  lemma HeldShrinks(s: State, t: State)
    requires HeldOk(s) && t.chunk == s.chunk && t.insts.Keys == s.insts.Keys
    requires forall d :: d in s.insts ==> Held(t, d) <= Held(s, d)
    ensures forall d :: d in t.insts ==> |Held(t, d)| <= t.chunk
  {
    forall d | d in t.insts ensures |Held(t, d)| <= t.chunk { SubsetSize(Held(t, d), Held(s, d)); }
  }

  // ---------------------------------------------------------------- callers

  lemma InsertSets(s: State, t: State, b: BatchId, lines: map<RowId, int>)
    requires lines.Keys !! s.rows.Keys && t.rows == InsertRows(s.rows, b, lines)
    ensures Waiting(t) == Waiting(s) + lines.Keys && ToRun(t) == ToRun(s) && Waiting(s) !! lines.Keys
    ensures t.rows.Keys == s.rows.Keys + lines.Keys
  {
    forall r
      ensures r in Waiting(t) <==> r in Waiting(s) + lines.Keys
      ensures r in ToRun(t) <==> r in ToRun(s)
    {}
  }

  lemma InsertHeld(s: State, t: State, b: BatchId, lines: map<RowId, int>, d: Instance)
    requires lines.Keys !! s.rows.Keys && t.rows == InsertRows(s.rows, b, lines)
    ensures Held(t, d) == Held(s, d)
  {
    forall r ensures r in Held(t, d) <==> r in Held(s, d) {}
  }

  lemma InsertTotals(s: State, t: State, b: BatchId, lines: map<RowId, int>)
    requires TotalsOk(s) && lines.Keys !! s.rows.Keys
    requires t.rows == InsertRows(s.rows, b, lines) && t.chunk == s.chunk && t.recovered == s.recovered
    requires t.nclaims == s.nclaims && t.nexecs == s.nexecs && t.nresets == s.nresets
    ensures TotalsOk(t) && forall d :: Held(t, d) == Held(s, d)
  {
    InsertSets(s, t, b, lines);
    assert |t.rows.Keys| == |s.rows.Keys| + |lines.Keys|;
    forall d ensures Held(t, d) == Held(s, d) { InsertHeld(s, t, b, lines, d); }
  }

  /** Submitted rows are new and nobody's. */
  lemma CallerInserts(s: State, c: CallerOp)
    requires TotalsOk(s) && CallerEnabled(s, c) && Clean(Caller(c))
    ensures TotalsOk(ApplyCaller(s, c)) && forall d :: Held(ApplyCaller(s, c), d) == Held(s, d)
  {
    CallerFrame(s, c);
    var t := ApplyCaller(s, c);
    match c
    case Submit(b, lines, _) => InsertTotals(s, t, b, lines);
    case SubmitSlow(b, r) => InsertTotals(s, t, b, map[r := 0]);
    case Append(b, lines, _) => InsertTotals(s, t, b, lines);
    case WaitOff(b) =>
      assert t.rows == s.rows && Waiting(t) == Waiting(s) && ToRun(t) == ToRun(s);
      forall d ensures Held(t, d) == Held(s, d) {}
  }

  lemma CallerTotals(s: State, c: CallerOp)
    requires TotalsOk(s) && HeldOk(s) && CallerEnabled(s, c) && Clean(Caller(c))
    ensures TotalsOk(ApplyCaller(s, c)) && HeldOk(ApplyCaller(s, c))
  {
    CallerInserts(s, c);
    CallerFrame(s, c);
    var t := ApplyCaller(s, c);
    forall r | r in t.rows && t.rows[r].unrun
      ensures !t.rows[r].status.Queued?
    {
      assert r in ToRun(t);
    }
    HeldSame(s, t);
  }

  lemma HeldSame(s: State, t: State)
    requires HeldOk(s) && t.chunk == s.chunk && t.insts == s.insts && t.crashed == s.crashed
    requires t.recovered == s.recovered
    requires forall d :: Held(t, d) == Held(s, d)
    requires forall r :: r in t.rows && t.rows[r].unrun ==> !t.rows[r].status.Queued?
    ensures HeldOk(t)
  {
  }

  // ---------------------------------------------------------------- claims and runs

  lemma ClaimSets(s: State, i: Instance, block: set<RowId>)
    requires HeldOk(s) && BlockEnabled(s, i, Claim(block))
    ensures var t := DoClaim(s, i, block);
      && Waiting(t) == Waiting(s) - block && ToRun(t) == ToRun(s) + block && t.rows.Keys == s.rows.Keys
      && block <= Waiting(s) && block !! ToRun(s)
  {
    var t := DoClaim(s, i, block);
    forall r
      ensures r in Waiting(t) <==> r in Waiting(s) - block
      ensures r in ToRun(t) <==> r in ToRun(s) + block
    {}
    assert Waiting(t) == Waiting(s) - block && ToRun(t) == ToRun(s) + block;
    forall r | r in block ensures r in Waiting(s) && r !in ToRun(s) { assert Claimable(s, r); }
    assert block <= Waiting(s) && block !! ToRun(s);
  }

  lemma ClaimTotals(s: State, i: Instance, block: set<RowId>)
    requires TotalsOk(s) && HeldOk(s) && BlockEnabled(s, i, Claim(block))
    ensures TotalsOk(DoClaim(s, i, block))
  {
    ClaimSets(s, i, block);
    assert |DoClaim(s, i, block).rows.Keys| == |s.rows.Keys|;
  }

  lemma ClaimHeld(s: State, i: Instance, block: set<RowId>)
    requires HeldOk(s) && NoLoss.OwnersOk(s) && BlockEnabled(s, i, Claim(block))
    ensures HeldOk(DoClaim(s, i, block))
  {
    var t := DoClaim(s, i, block);
    forall d | d in t.insts
      ensures |Held(t, d)| <= t.chunk
    {
      forall r | r in Held(t, d)
        ensures r in (if d == i then block else Held(s, d))
      {
        assert NoLoss.OwnerOk(s, r);
      }
      SubsetSize(Held(t, d), if d == i then block else Held(s, d));
    }
  }

  /** Rows only leave inprog, for a terminal status, and none is to be run again. */
  ghost predicate Moves(s: State, t: State) {
    t.rows.Keys == s.rows.Keys && t.insts.Keys == s.insts.Keys && t.chunk == s.chunk &&
    forall r :: r in s.rows ==>
      && t.rows[r].owner == s.rows[r].owner && (t.rows[r].unrun ==> s.rows[r].unrun)
      && (t.rows[r].status == s.rows[r].status || (s.rows[r].status.Inprog? && Terminal(t.rows[r].status)))
  }

  lemma RowMoves(s: State, i: Instance, op: RowOp)
    requires Own.Inv(s) && RowEnabled(s, i, op) && Clean(InLoop(i, op))
    ensures Moves(s, ApplyRow(s, i, op))
  {
    RowFrame(s, i, op);
    Own.WritesOnlyOwn(s, i, op);
    assert Own.Owned(s, i, s.insts[i].worker);
  }

  lemma MovedSets(s: State, t: State)
    requires Moves(s, t)
    ensures Waiting(t) <= Waiting(s) && ToRun(t) <= ToRun(s) && |t.rows| == |s.rows|
    ensures forall d :: Held(t, d) <= Held(s, d)
  {
    assert |t.rows.Keys| == |s.rows.Keys|;
    forall r | r in Waiting(t) ensures r in Waiting(s) {}
    forall r | r in ToRun(t) ensures r in ToRun(s) {}
    forall d
      ensures Held(t, d) <= Held(s, d)
    {
      forall r | r in Held(t, d) ensures r in Held(s, d) {}
    }
  }

  lemma RowTotals(s: State, i: Instance, op: RowOp)
    requires Inv(s) && RowEnabled(s, i, op) && Clean(InLoop(i, op))
    ensures TotalsOk(ApplyRow(s, i, op))
  {
    RowFrame(s, i, op);
    var t := ApplyRow(s, i, op);
    RowMoves(s, i, op);
    MovedSets(s, t);
    SubsetSize(Waiting(t), Waiting(s));
    RunPaidFor(s, i, op);
  }

  lemma RowHeld(s: State, i: Instance, op: RowOp)
    requires Inv(s) && RowEnabled(s, i, op) && Clean(InLoop(i, op))
    ensures HeldOk(ApplyRow(s, i, op))
  {
    RowMoves(s, i, op);
    RowFrame(s, i, op);
    MovedHeld(s, ApplyRow(s, i, op), i);
  }

  lemma MovedHeld(s: State, t: State, i: Instance)
    requires HeldOk(s) && Moves(s, t) && i in s.insts && t.insts == s.insts[i := t.insts[i]]
    requires s.insts[i].worker.Looping? && t.insts[i].worker.Looping?
    requires t.crashed == s.crashed && t.recovered == s.recovered
    ensures HeldOk(t)
  {
    MovedSets(s, t);
    HeldShrinks(s, t);
  }

  /** The processor runs a row only if the claim that is outstanding for it has not been used. */
  lemma RunPaidFor(s: State, i: Instance, op: RowOp)
    requires Own.Inv(s) && RowEnabled(s, i, op) && Clean(InLoop(i, op))
    ensures var t := ApplyRow(s, i, op);
      t.nexecs + |ToRun(t)| <= s.nexecs + |ToRun(s)| && t.nclaims == s.nclaims && t.nresets == s.nresets
  {
    RowFrame(s, i, op);
    var t := ApplyRow(s, i, op);
    if op.Call? {
      CallUses(s, i, op.r);
    } else {
      RowMoves(s, i, op);
      MovedSets(s, t);
      SubsetSize(ToRun(t), ToRun(s));
    }
  }

  lemma CallUses(s: State, i: Instance, r: RowId)
    requires Own.Inv(s) && CanTake(s, i, r)
    ensures r in ToRun(s) && ToRun(DoCall(s, i, r)) == ToRun(s) - {r}
  {
    assert Own.Owned(s, i, s.insts[i].worker);
    var t := DoCall(s, i, r);
    forall q ensures q in ToRun(t) <==> q in ToRun(s) - {r} {}
  }

  // ---------------------------------------------------------------- resets

  lemma ResetSets(s: State, d: Instance)
    requires RecEnabled(s, Atomic(d))
    ensures var t := ApplyRec(s, Atomic(d));
      var hit := Resettable(s, s.insts[d].tracked);
      && Waiting(t) == Waiting(s) + hit && Waiting(s) !! hit && ToRun(t) <= ToRun(s) && t.rows.Keys == s.rows.Keys
      && forall e :: e in s.insts ==> Held(t, e) <= Held(s, e)
  {
    var t := ApplyRec(s, Atomic(d));
    var hit := Resettable(s, s.insts[d].tracked);
    forall r
      ensures r in Waiting(t) <==> r in Waiting(s) + hit
      ensures r in ToRun(t) ==> r in ToRun(s)
    {}
    forall e | e in s.insts
      ensures Held(t, e) <= Held(s, e)
    {
      forall r | r in Held(t, e) ensures r in Held(s, e) {}
    }
  }

  ghost predicate PaidFor(s: State, d: Instance)
    requires RecEnabled(s, Atomic(d))
  {
    var hit := Resettable(s, s.insts[d].tracked);
    hit != {} ==> |hit| <= s.chunk && d in s.crashed && d !in s.recovered
  }

  /** A recovery that resets something is the first one of its instance, and resets at most one block. */
  lemma ResetPaidFor(s: State, d: Instance)
    requires Inv(s) && RecEnabled(s, Atomic(d))
    ensures PaidFor(s, d)
  {
    var hit := Resettable(s, s.insts[d].tracked);
    Cl.AtomicHitsOwn(s, d);
    if hit != {} {
      var r := Pick(hit);
      assert NoLoss.OwnerOk(s, r) && NoLoss.InstOk(s.insts[d]);
      forall q | q in hit ensures q in Held(s, d) {}
      SubsetSize(hit, Held(s, d));
    }
  }

  lemma ResetTotals(s: State, d: Instance)
    requires TotalsOk(s) && RecEnabled(s, Atomic(d)) && PaidFor(s, d)
    ensures TotalsOk(ApplyRec(s, Atomic(d)))
  {
    var t := ApplyRec(s, Atomic(d));
    ResetSets(s, d);
    SubsetSize(ToRun(t), ToRun(s));
    assert |t.rows.Keys| == |s.rows.Keys|;
  }

  lemma ResetUnrun(s: State, d: Instance)
    requires HeldOk(s) && RecEnabled(s, Atomic(d))
    ensures var t := ApplyRec(s, Atomic(d)); forall r :: r in t.rows && t.rows[r].unrun ==> !t.rows[r].status.Queued?
  {
  }

  lemma ResetShrinks(s: State, d: Instance)
    requires HeldOk(s) && RecEnabled(s, Atomic(d))
    ensures var t := ApplyRec(s, Atomic(d)); forall e :: e in t.insts ==> |Held(t, e)| <= t.chunk
  {
    ResetSets(s, d);
    HeldShrinks(s, ApplyRec(s, Atomic(d)));
  }

  lemma ResetLives(s: State, d: Instance)
    requires HeldOk(s) && RecEnabled(s, Atomic(d)) && PaidFor(s, d)
    ensures var t := ApplyRec(s, Atomic(d));
      && t.recovered <= t.crashed && t.crashed == s.crashed && t.insts.Keys == s.insts.Keys
      && (forall e :: e in t.insts ==> t.insts[e].worker == s.insts[e].worker)
      && (forall e :: e in t.recovered ==> e in t.insts && t.insts[e].tracked == {})
  {
  }

  lemma ResetHeld(s: State, d: Instance)
    requires HeldOk(s) && RecEnabled(s, Atomic(d)) && PaidFor(s, d)
    ensures HeldOk(ApplyRec(s, Atomic(d)))
  {
    ResetShrinks(s, d);
    ResetLives(s, d);
    ResetUnrun(s, d);
  }

  lemma NothingHeldBy(s: State, d: Instance)
    requires Inv(s) && d !in s.insts
    ensures Held(s, d) == {}
  {
    forall r | r in s.rows ensures r !in Held(s, d) { assert NoLoss.OwnerOk(s, r); }
  }

  lemma LifeHeld(s: State, i: Instance, life: LifeOp)
    requires Inv(s) && LifeEnabled(s, i, life)
    ensures var t := ApplyLife(s, i, life); forall d :: d in t.insts ==> |Held(t, d)| <= t.chunk
  {
    var t := ApplyLife(s, i, life);
    forall d | d in t.insts
      ensures |Held(t, d)| <= t.chunk
    {
      assert Held(t, d) == Held(s, d);
      if d !in s.insts { NothingHeldBy(s, d); }
    }
  }

  lemma LifeCrashes(s: State, i: Instance, life: LifeOp)
    requires HeldOk(s) && LifeEnabled(s, i, life)
    ensures var t := ApplyLife(s, i, life);
      && t.recovered == s.recovered && t.recovered <= t.crashed
      && (forall d :: d in t.crashed <==> d in t.insts && t.insts[d].worker.Dead?)
      && (forall d :: d in t.recovered ==> d in t.insts && t.insts[d].tracked == {})
  {}

  lemma LifeTotals(s: State, i: Instance, life: LifeOp)
    requires Inv(s) && LifeEnabled(s, i, life)
    ensures TotalsOk(ApplyLife(s, i, life)) && HeldOk(ApplyLife(s, i, life))
  {
    var t := ApplyLife(s, i, life);
    assert t.rows == s.rows && t.chunk == s.chunk;
    assert Waiting(t) == Waiting(s) && ToRun(t) == ToRun(s);
    LifeHeld(s, i, life);
    LifeCrashes(s, i, life);
  }

  /** Nothing that the totals speak of has changed. */
  ghost predicate Quiet(s: State, t: State) {
    && t.rows == s.rows && t.chunk == s.chunk
    && t.crashed == s.crashed && t.recovered == s.recovered && t.insts.Keys == s.insts.Keys
    && (forall j :: j in s.insts ==>
          && (t.insts[j].worker.Dead? <==> s.insts[j].worker.Dead?)
          && (s.insts[j].worker.Dead? ==> t.insts[j] == s.insts[j]))
    && t.nclaims == s.nclaims && t.nexecs == s.nexecs && t.nresets == s.nresets
  }

  lemma QuietBlock(s: State, i: Instance, op: BlockOp)
    requires BlockEnabled(s, i, op) && !op.Claim?
    ensures Quiet(s, ApplyBlock(s, i, op))
  {}

  lemma QuietSum(s: State, b: BatchId, op: SumOp)
    requires SumEnabled(s, b, op)
    ensures Quiet(s, ApplySum(s, b, op))
  {
    SumFrame(s, b, op);
  }

  lemma SameTotals(s: State, t: State)
    requires TotalsOk(s) && HeldOk(s) && Quiet(s, t)
    ensures TotalsOk(t) && HeldOk(t)
  {
    assert Waiting(t) == Waiting(s) && ToRun(t) == ToRun(s);
    forall d | d in t.insts ensures |Held(t, d)| <= t.chunk { assert Held(t, d) == Held(s, d); }
  }

  lemma BlockTotals(s: State, i: Instance, op: BlockOp)
    requires Inv(s) && BlockEnabled(s, i, op)
    ensures TotalsOk(ApplyBlock(s, i, op)) && HeldOk(ApplyBlock(s, i, op))
  {
    if op.Claim? {
      ClaimTotals(s, i, op.block);
      ClaimHeld(s, i, op.block);
    } else {
      QuietBlock(s, i, op);
      SameTotals(s, ApplyBlock(s, i, op));
    }
  }

  lemma StepTotals(s: State, step: Step)
    requires Inv(s) && Enabled(s, step) && Clean(step)
    ensures TotalsOk(Apply(s, step)) && HeldOk(Apply(s, step))
  {
    match step
    case Caller(c) => CallerTotals(s, c);
    case Life(i, life) => LifeTotals(s, i, life);
    case Block(i, op) => BlockTotals(s, i, op);
    case InLoop(i, op) => RowTotals(s, i, op); RowHeld(s, i, op);
    case Sweep => SameTotals(s, Apply(s, step));
    case Summary(b, op) => QuietSum(s, b, op); SameTotals(s, Apply(s, step));
    case Recovery(op) => ResetPaidFor(s, op.d); ResetTotals(s, op.d); ResetHeld(s, op.d);
  }

  lemma StepInv(s: State, step: Step)
    requires Inv(s) && Enabled(s, step) && Clean(step)
    ensures Inv(Apply(s, step))
  {
    Cl.StepInv(s, step);
    StepTotals(s, step);
  }

  lemma {:induction false} RunInv(s: State, steps: seq<Step>, t: State)
    requires Inv(s) && Run(s, steps, t) && AllClean(steps)
    ensures Inv(t)
    decreases |steps|
  {
    if steps != [] {
      assert Clean(steps[0]);
      StepInv(s, steps[0]);
      assert AllClean(steps[1..]);
      RunInv(Apply(s, steps[0]), steps[1..], t);
    }
  }

  lemma InitialInv(chunk: nat)
    ensures Inv(Initial(chunk))
  {
    var s := Initial(chunk);
    assert Waiting(s) == {} && ToRun(s) == {};
  }

  lemma TotalsInRun(s: State)
    requires CleanReachable(s)
    ensures s.nexecs <= s.nclaims <= |s.rows| + s.nresets
    ensures s.nresets <= Allowance(s.chunk, |s.crashed|)
  {
    var steps :| Run(Initial(s.chunk), steps, s) && AllClean(steps);
    InitialInv(s.chunk);
    RunInv(Initial(s.chunk), steps, s);
    SubsetSize(s.recovered, s.crashed);
    AllowanceGrows(s.chunk, |s.recovered|, |s.crashed|);
  }

  /**
   Bounded rework: in a run with one loop for each instance and recovery as one step, the
   processor is started at most once for each submitted row plus BatchChunkNRows for each crash;
   runs that a crash cut off before their result was written are counted.
   */
  lemma ReworkBounded(s: State)
    requires CleanReachable(s)
    ensures s.nresets <= s.chunk * |s.crashed|
    ensures s.nexecs <= s.nclaims <= |s.rows| + s.chunk * |s.crashed|
  {
    TotalsInRun(s);
    AllowanceIsProduct(s.chunk, |s.crashed|);
  }
}
