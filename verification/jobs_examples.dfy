/** Concrete runs: what the sweep achieves, and what goes wrong outside the proved conditions. */
module BatchExamples {
  import opened BatchProtocol
  import opened BatchStructure
  import Cl = BatchClean
  import NoLoss = BatchNoLoss
  import Own = BatchOwnership
  import Summ = BatchSummary

  lemma RunCons(s: State, step: Step, rest: seq<Step>, t: State)
    requires Enabled(s, step) && Run(Apply(s, step), rest, t)
    ensures Run(s, [step] + rest, t)
  {
    assert ([step] + rest)[1..] == rest;
  }

  lemma {:induction false} RunConcat(s: State, a: seq<Step>, t: State, b: seq<Step>, u: State)
    requires Run(s, a, t) && Run(t, b, u)
    ensures Run(s, a + b, u)
    decreases |a|
  {
    if a == [] {
      assert a + b == b;
    } else {
      var rest := a[1..] + b;
      RunConcat(Apply(s, a[0]), a[1..], t, b, u);
      assert a + b == [a[0]] + rest;
      RunCons(s, a[0], rest, u);
    }
  }

  // ---------------------------------------------------------------- the sweep

  lemma SumLocked(s: State, b: BatchId)
    requires Reachable(s) && b in Unsummarized(s) && b !in s.sums
    ensures var t := Apply(s, Sweep);
      && Enabled(s, Sweep) && Enabled(t, Summary(b, Begin))
      && Apply(t, Summary(b, Begin)) ==
           s.(candidates := s.candidates + Unsummarized(s), sums := s.sums[b := Sum(Locked, Tally(0, 0, 0), {})])
  {}

  lemma NothingPending(rows: map<RowId, Row>, b: BatchId)
    requires PendingIn(rows, b) == {}
    ensures RowsIn(rows, b, Queued) == {} && RowsIn(rows, b, Inprog) == {}
  {
    forall r | r in RowsIn(rows, b, Queued) + RowsIn(rows, b, Inprog) ensures r in PendingIn(rows, b) {}
    assert RowsIn(rows, b, Queued) + RowsIn(rows, b, Inprog) <= {};
  }

  lemma CountsPass(s: State, b: BatchId) returns (steps: seq<Step>)
    requires b in s.batches && b in s.sums && s.sums[b].phase.Locked? && PendingIn(s.rows, b) == {}
    ensures Run(s, steps, s.(sums := s.sums[b := s.sums[b].(phase := NoInprog)]))
  {
    NothingPending(s.rows, b);
    var s1 := Apply(s, Summary(b, CountQueued));
    var s2 := Apply(s1, Summary(b, CountInprog));
    assert s2 == s.(sums := s.sums[b := s.sums[b].(phase := NoInprog)]);
    RunCons(s1, Summary(b, CountInprog), [], s2);
    RunCons(s, Summary(b, CountQueued), [Summary(b, CountInprog)] + [], s2);
    steps := [Summary(b, CountQueued)] + ([Summary(b, CountInprog)] + []);
  }

  lemma TallyToCommit(s: State, b: BatchId) returns (steps: seq<Step>, t: State)
    requires b in s.batches && b in s.sums && s.sums[b].phase.NoInprog?
    ensures Run(s, steps, t) && b in t.batches && t.batches[b].done && t.rows == s.rows
    ensures t.batches[b].counts == Some(TallyOf(s.rows, b))
    ensures t.batches[b].status == DetermineBatchStatus(TallyOf(s.rows, b))
  {
    var s1 := Apply(s, Summary(b, TakeTally));
    var s2 := Apply(s1, Summary(b, CallMarkDone));
    t := Apply(s2, Summary(b, Commit));
    RunCons(s2, Summary(b, Commit), [], t);
    steps := [Summary(b, Commit)] + [];
    RunCons(s1, Summary(b, CallMarkDone), steps, t);
    steps := [Summary(b, CallMarkDone)] + steps;
    RunCons(s, Summary(b, TakeTally), steps, t);
    steps := [Summary(b, TakeTally)] + steps;
  }

  /**
   What the sweep query returns can be finished at once: sweep, then the statements of the
   summarisation, lead to a done batch whose counters are the tallies of its rows.
   */
  lemma SweepFinishes(s: State, b: BatchId) returns (steps: seq<Step>, t: State)
    requires Reachable(s) && b in Unsummarized(s) && b !in s.sums
    ensures Run(s, steps, t) && b in t.batches && t.batches[b].done && t.rows == s.rows
    ensures t.batches[b].counts == Some(TallyOf(s.rows, b))
    ensures t.batches[b].status == DetermineBatchStatus(TallyOf(s.rows, b))
    ensures Summ.SummaryFits(t.rows, b, t.batches[b])
  {
    SumLocked(s, b);
    var s1 := Apply(s, Sweep);
    var s2 := Apply(s1, Summary(b, Begin));
    var counts := CountsPass(s2, b);
    var s4 := s2.(sums := s2.sums[b := s2.sums[b].(phase := NoInprog)]);
    var finish;
    finish, t := TallyToCommit(s4, b);
    RunConcat(s2, counts, s4, finish, t);
    RunCons(s1, Summary(b, Begin), counts + finish, t);
    RunCons(s, Sweep, [Summary(b, Begin)] + (counts + finish), t);
    steps := [Sweep] + ([Summary(b, Begin)] + (counts + finish));
    Summ.SummaryIsFit(t.rows, b, t.batches[b]);
  }

  // ---------------------------------------------------------------- three bad runs

  lemma {:induction false} RunSnoc(s: State, steps: seq<Step>, t: State, step: Step)
    requires Run(s, steps, t) && Enabled(t, step)
    ensures Run(s, steps + [step], Apply(t, step))
  {
    RunCons(t, step, [], Apply(t, step));
    assert [step] + [] == [step];
    RunConcat(s, steps, t, [step], Apply(t, step));
  }

  /** One checked step of a concrete run. */
  ghost predicate Leads(s: State, step: Step, t: State) {
    Enabled(s, step) && Apply(s, step) == t
  }

  lemma CleanNext(s: State, step: Step, t: State)
    requires CleanReachable(s) && Leads(s, step, t) && Clean(step)
    ensures CleanReachable(t)
  {
    var steps :| Run(Initial(s.chunk), steps, s) && AllClean(steps);
    RunSnoc(Initial(s.chunk), steps, s, step);
    ChunkKept(s, step);
    assert AllClean(steps + [step]);
  }

  lemma Next(s: State, step: Step, t: State)
    requires Reachable(s) && Leads(s, step, t)
    ensures Reachable(t)
  {
    var steps :| Run(Initial(s.chunk), steps, s);
    RunSnoc(Initial(s.chunk), steps, s, step);
    ChunkKept(s, step);
  }

  lemma Begins(chunk: nat)
    ensures CleanReachable(Initial(chunk)) && Reachable(Initial(chunk))
  {
    assert Run(Initial(chunk), [], Initial(chunk)) && AllClean([]);
  }

  /** Row `line` of batch 0. */
  function R(line: int, status: Status, owner: Instance, unrun: bool, claims: nat, resets: nat): Row {
    Row(0, line, status, owner, unrun, claims, resets)
  }

  function Fresh(status: Status): Batch {
    Batch(status, false, None, 0, 0, 0, {})
  }

  // The race: instance 1 dies with row 1 while instance 2 finishes row 2, and the recovery of
  // instance 1 falls between the two counts of the summarisation.

  function Race0(): State {
    State(1, map[1 := R(1, Queued, 0, false, 0, 0), 2 := R(2, Queued, 0, false, 0, 0)],
          map[0 := Fresh(Queued)],
          map[],
          map[], map[], {}, {}, {}, {}, 0, 0, 0)
  }

  lemma Race0Leads()
    ensures Leads(Initial(1), Caller(Submit(0, map[1 := 1, 2 := 2], false)), Race0())
  {}

  function Race1(): State {
    State(1, map[1 := R(1, Queued, 0, false, 0, 0), 2 := R(2, Queued, 0, false, 0, 0)],
          map[0 := Fresh(Queued)],
          map[1 := Inst(Idle, true, true, {})],
          map[], map[], {}, {}, {}, {}, 0, 0, 0)
  }

  lemma Race1Leads()
    ensures Leads(Race0(), Life(1, Start), Race1())
  {}

  function Race2(): State {
    State(1, map[1 := R(1, Queued, 0, false, 0, 0), 2 := R(2, Queued, 0, false, 0, 0)],
          map[0 := Fresh(Queued)],
          map[1 := Inst(Idle, true, true, {}), 2 := Inst(Idle, true, true, {})],
          map[], map[], {}, {}, {}, {}, 0, 0, 0)
  }

  lemma Race2Leads()
    ensures Leads(Race1(), Life(2, Start), Race2())
  {}

  function Race3(): State {
    State(1, map[1 := R(1, Inprog, 1, true, 1, 0), 2 := R(2, Queued, 0, false, 0, 0)],
          map[0 := Fresh(Inprog)],
          map[1 := Inst(Tracking({1}, {1}), true, true, {}), 2 := Inst(Idle, true, true, {})],
          map[], map[], {}, {}, {}, {}, 1, 0, 0)
  }

  lemma Race3Leads()
    ensures Leads(Race2(), Block(1, Claim({1})), Race3())
  {}

  lemma ClaimedReached()
    ensures CleanReachable(Race2()) && CleanReachable(Race3())
  {
    Begins(1);
    Race0Leads();
    CleanNext(Initial(1), Caller(Submit(0, map[1 := 1, 2 := 2], false)), Race0());
    Race1Leads();
    CleanNext(Race0(), Life(1, Start), Race1());
    Race2Leads();
    CleanNext(Race1(), Life(2, Start), Race2());
    Race3Leads();
    CleanNext(Race2(), Block(1, Claim({1})), Race3());
  }

  function Race4(): State {
    State(1, map[1 := R(1, Inprog, 1, true, 1, 0), 2 := R(2, Queued, 0, false, 0, 0)],
          map[0 := Fresh(Inprog)],
          map[1 := Inst(Looping({1}, {1}, Between, {}), true, true, {1}), 2 := Inst(Idle, true, true, {})],
          map[], map[], {}, {}, {}, {}, 1, 0, 0)
  }

  lemma Race4Leads()
    ensures Leads(Race3(), Block(1, Track(1)), Race4())
  {
    var s := Race3();
    assert {1} - {1} == {};
    assert {} + {1} == {1};
  }

  function Race5(): State {
    State(1, map[1 := R(1, Inprog, 1, true, 1, 0), 2 := R(2, Queued, 0, false, 0, 0)],
          map[0 := Fresh(Inprog)],
          map[1 := Inst(Dead, true, true, {1}), 2 := Inst(Idle, true, true, {})],
          map[], map[], {}, {}, {1}, {}, 1, 0, 0)
  }

  lemma Race5Leads()
    ensures Leads(Race4(), Life(1, Crash), Race5())
  {
    var s := Race4();
    assert (set r | r in s.rows && s.rows[r].status.Inprog? && s.rows[r].owner == 1 && r !in s.insts[1].tracked) == {};
  }

  function Race6(): State {
    State(1, map[1 := R(1, Inprog, 1, true, 1, 0), 2 := R(2, Queued, 0, false, 0, 0)],
          map[0 := Fresh(Inprog)],
          map[1 := Inst(Dead, true, false, {1}), 2 := Inst(Idle, true, true, {})],
          map[], map[], {}, {}, {1}, {}, 1, 0, 0)
  }

  lemma Race6Leads()
    ensures Leads(Race5(), Life(1, Expire), Race6())
  {}

  lemma DeadReached()
    ensures CleanReachable(Race6())
  {
    ClaimedReached();
    Race4Leads();
    CleanNext(Race3(), Block(1, Track(1)), Race4());
    Race5Leads();
    CleanNext(Race4(), Life(1, Crash), Race5());
    Race6Leads();
    CleanNext(Race5(), Life(1, Expire), Race6());
  }

  function Race7(): State {
    State(1, map[1 := R(1, Inprog, 1, true, 1, 0), 2 := R(2, Inprog, 2, true, 1, 0)],
          map[0 := Fresh(Inprog)],
          map[1 := Inst(Dead, true, false, {1}), 2 := Inst(Tracking({2}, {2}), true, true, {})],
          map[], map[], {}, {}, {1}, {}, 2, 0, 0)
  }

  lemma Race7Leads()
    ensures Leads(Race6(), Block(2, Claim({2})), Race7())
  {}

  function Race8(): State {
    State(1, map[1 := R(1, Inprog, 1, true, 1, 0), 2 := R(2, Inprog, 2, true, 1, 0)],
          map[0 := Fresh(Inprog)],
          map[1 := Inst(Dead, true, false, {1}), 2 := Inst(Looping({2}, {2}, Between, {}), true, true, {2})],
          map[], map[], {}, {}, {1}, {}, 2, 0, 0)
  }

  lemma Race8Leads()
    ensures Leads(Race7(), Block(2, Track(2)), Race8())
  {
    var s := Race7();
    assert {2} - {2} == {};
    assert {} + {2} == {2};
  }

  function RaceRunning(): State {
    State(1, map[1 := R(1, Inprog, 1, true, 1, 0), 2 := R(2, Inprog, 2, false, 1, 0)],
          map[0 := Fresh(Inprog)],
          map[1 := Inst(Dead, true, false, {1}), 2 := Inst(Looping({2}, {2}, AtRow(2, Running), {}), true, true, {2})],
          map[], map[], {}, {}, {1}, {}, 2, 0, 1)
  }

  lemma RaceRunningLeads()
    ensures Leads(Race8(), InLoop(2, Call(2)), RaceRunning())
  {}

  function Race9(): State {
    State(1, map[1 := R(1, Inprog, 1, true, 1, 0), 2 := R(2, Success, 2, false, 1, 0)],
          map[0 := Fresh(Inprog)],
          map[1 := Inst(Dead, true, false, {1}),
              2 := Inst(Looping({2}, {2}, AtRow(2, Untracking(NoErr)), {}), true, true, {2})],
          map[], map[], {}, {}, {1}, {}, 2, 0, 1)
  }

  lemma Race9Leads()
    ensures Leads(RaceRunning(), InLoop(2, Return(Result(Success))), Race9())
  {}

  function Race10(): State {
    State(1, map[1 := R(1, Inprog, 1, true, 1, 0), 2 := R(2, Success, 2, false, 1, 0)],
          map[0 := Fresh(Inprog)],
          map[1 := Inst(Dead, true, false, {1}), 2 := Inst(Looping({2}, {}, Between, {}), true, true, {})],
          map[], map[], {}, {}, {1}, {}, 2, 0, 1)
  }

  lemma Race10Leads()
    ensures Leads(Race9(), InLoop(2, Untrack), Race10())
  {
    var s := Race9();
    assert {2} - {2} == {};
  }

  function Race11(): State {
    State(1, map[1 := R(1, Inprog, 1, true, 1, 0), 2 := R(2, Success, 2, false, 1, 0)],
          map[0 := Fresh(Inprog)],
          map[1 := Inst(Dead, true, false, {1}), 2 := Inst(Idle, true, true, {})],
          map[], map[], {0}, {}, {1}, {}, 2, 0, 1)
  }

  lemma Race11Leads()
    ensures Leads(Race10(), Block(2, EndBlock), Race11())
  {
    var s := Race10();
    assert 2 in {2} && s.rows[2].batch in (set r | r in {2} :: s.rows[r].batch);
    assert (set r | r in {2} :: s.rows[r].batch) == {0};
  }

  function Race12(): State {
    State(1, map[1 := R(1, Inprog, 1, true, 1, 0), 2 := R(2, Success, 2, false, 1, 0)],
          map[0 := Fresh(Inprog)],
          map[1 := Inst(Dead, true, false, {1}), 2 := Inst(Idle, true, true, {})],
          map[0 := Sum(Locked, Tally(0, 0, 0), {})], map[], {0}, {}, {1}, {}, 2, 0, 1)
  }

  lemma Race12Leads()
    ensures Leads(Race11(), Summary(0, Begin), Race12())
  {}

  function Race13(): State {
    State(1, map[1 := R(1, Inprog, 1, true, 1, 0), 2 := R(2, Success, 2, false, 1, 0)],
          map[0 := Fresh(Inprog)],
          map[1 := Inst(Dead, true, false, {1}), 2 := Inst(Idle, true, true, {})],
          map[0 := Sum(NoQueued, Tally(0, 0, 0), {})], map[], {0}, {}, {1}, {}, 2, 0, 1)
  }

  lemma Race13Leads()
    ensures Leads(Race12(), Summary(0, CountQueued), Race13())
  {
    var s := Race12();
    assert RowsIn(s.rows, 0, Queued) == {};
  }

  function Race14(): State {
    State(1, map[1 := R(1, Queued, 1, false, 1, 1), 2 := R(2, Success, 2, false, 1, 0)],
          map[0 := Fresh(Inprog)],
          map[1 := Inst(Dead, false, false, {}), 2 := Inst(Idle, true, true, {})],
          map[0 := Sum(NoQueued, Tally(0, 0, 0), {1})], map[], {0}, {}, {1}, {1}, 2, 1, 1)
  }

  lemma Race14Leads()
    ensures Leads(Race13(), Recovery(Atomic(1)), Race14())
  {
    var s := Race13();
    assert Resettable(s, {1}) == {1};
    assert (set r | r in {1} && r in s.rows && s.rows[r].batch == 0) == {1};
    assert {} + (set r | r in {1} && r in s.rows && s.rows[r].batch == 0) == {1};
    assert NoteReset(s, {1})[0] == Sum(NoQueued, Tally(0, 0, 0), {1});
    assert ResetRows(s.rows, {1}) == map[1 := R(1, Queued, 1, false, 1, 1), 2 := R(2, Success, 2, false, 1, 0)];
  }

  function Race15(): State {
    State(1, map[1 := R(1, Queued, 1, false, 1, 1), 2 := R(2, Success, 2, false, 1, 0)],
          map[0 := Fresh(Inprog)],
          map[1 := Inst(Dead, false, false, {}), 2 := Inst(Idle, true, true, {})],
          map[0 := Sum(NoInprog, Tally(0, 0, 0), {1})], map[], {0}, {}, {1}, {1}, 2, 1, 1)
  }

  lemma Race15Leads()
    ensures Leads(Race14(), Summary(0, CountInprog), Race15())
  {
    var s := Race14();
    assert RowsIn(s.rows, 0, Inprog) == {};
  }

  function Race16(): State {
    State(1, map[1 := R(1, Queued, 1, false, 1, 1), 2 := R(2, Success, 2, false, 1, 0)],
          map[0 := Fresh(Inprog)],
          map[1 := Inst(Dead, false, false, {}), 2 := Inst(Idle, true, true, {})],
          map[0 := Sum(Tallied, Tally(1, 0, 0), {1})], map[], {0}, {}, {1}, {1}, 2, 1, 1)
  }

  lemma Race16Leads()
    ensures Leads(Race15(), Summary(0, TakeTally), Race16())
  {
    var s := Race15();
    assert RowsIn(s.rows, 0, Success) == {2};
    assert RowsIn(s.rows, 0, Failed) == {};
    assert RowsIn(s.rows, 0, Aborted) == {};
  }

  function Race17(): State {
    State(1, map[1 := R(1, Queued, 1, false, 1, 1), 2 := R(2, Success, 2, false, 1, 0)],
          map[0 := Batch(Inprog, false, None, 0, 1, 0, {})],
          map[1 := Inst(Dead, false, false, {}), 2 := Inst(Idle, true, true, {})],
          map[0 := Sum(Marked, Tally(1, 0, 0), {1})], map[], {0}, {}, {1}, {1}, 2, 1, 1)
  }

  lemma Race17Leads()
    ensures Leads(Race16(), Summary(0, CallMarkDone), Race17())
  {}

  function Race18(): State {
    State(1, map[1 := R(1, Queued, 1, false, 1, 1), 2 := R(2, Success, 2, false, 1, 0)],
          map[0 := Batch(Success, true, Some(Tally(1, 0, 0)), 1, 1, 0, {1})],
          map[1 := Inst(Dead, false, false, {}), 2 := Inst(Idle, true, true, {})],
          map[], map[], {0}, {}, {1}, {1}, 2, 1, 1)
  }

  lemma Race18Leads()
    ensures Leads(Race17(), Summary(0, Commit), Race18())
  {}

  /** Instance 2 finishes row 2. */
  lemma RaceFinished()
    ensures CleanReachable(Race11())
  {
    DeadReached();
    Race7Leads();
    CleanNext(Race6(), Block(2, Claim({2})), Race7());
    Race8Leads();
    CleanNext(Race7(), Block(2, Track(2)), Race8());
    RaceRunningLeads();
    CleanNext(Race8(), InLoop(2, Call(2)), RaceRunning());
    Race9Leads();
    CleanNext(RaceRunning(), InLoop(2, Return(Result(Success))), Race9());
    Race10Leads();
    CleanNext(Race9(), InLoop(2, Untrack), Race10());
    Race11Leads();
    CleanNext(Race10(), Block(2, EndBlock), Race11());
  }

  /** The reset of row 1 falls between the counts. */
  lemma RaceCounted()
    ensures CleanReachable(Race15())
  {
    RaceFinished();
    Race12Leads();
    CleanNext(Race11(), Summary(0, Begin), Race12());
    Race13Leads();
    CleanNext(Race12(), Summary(0, CountQueued), Race13());
    Race14Leads();
    CleanNext(Race13(), Recovery(Atomic(1)), Race14());
    Race15Leads();
    CleanNext(Race14(), Summary(0, CountInprog), Race15());
  }

  lemma RaceReached()
    ensures CleanReachable(Race18())
  {
    RaceCounted();
    Race16Leads();
    CleanNext(Race15(), Summary(0, TakeTally), Race16());
    Race17Leads();
    CleanNext(Race16(), Summary(0, CallMarkDone), Race17());
    Race18Leads();
    CleanNext(Race17(), Summary(0, Commit), Race18());
  }

  /**
   Doneat does not always mean finished: a clean run in which the batch is done with status
   success and one success counted, while its other row is in the queue.
   */
  lemma DoneBatchWithQueuedRow()
    ensures CleanReachable(Race18()) && Race18().batches[0].done && Race18().batches[0].status == Success
    ensures Race18().batches[0].counts == Some(Tally(1, 0, 0)) && PendingIn(Race18().rows, 0) == {1}
    ensures AllIn(Race18().rows, 0) == {1, 2}
  {
    RaceReached();
    forall r ensures r in PendingIn(Race18().rows, 0) <==> r in {1} {}
    forall r ensures r in AllIn(Race18().rows, 0) <==> r in {1, 2} {}
  }

  // A crash between the commit of a claim and the tracking of its rows.

  function Lost0(): State {
    State(1, map[1 := R(1, Inprog, 1, true, 1, 0), 2 := R(2, Queued, 0, false, 0, 0)],
          map[0 := Fresh(Inprog)],
          map[1 := Inst(Dead, true, true, {}), 2 := Inst(Idle, true, true, {})],
          map[], map[], {}, {1}, {1}, {}, 1, 0, 0)
  }

  lemma Lost0Leads()
    ensures Leads(Race3(), Life(1, Crash), Lost0())
  {
    var s := Race3();
    assert (set r | r in s.rows && s.rows[r].status.Inprog? && s.rows[r].owner == 1 && r !in s.insts[1].tracked) == {1};
  }

  /** The crash that strands row 1. */
  lemma LostReached()
    ensures CleanReachable(Race3()) && CleanReachable(Lost0())
    ensures Enabled(Race3(), Life(1, Crash)) && Apply(Race3(), Life(1, Crash)) == Lost0()
    ensures 1 in Lost0().stranded && 1 !in Race3().stranded
  {
    ClaimedReached();
    Lost0Leads();
    CleanNext(Race3(), Life(1, Crash), Lost0());
  }

  /** The row claimed just before the crash is inprog for ever, and its batch is never done. */
  lemma UntrackedClaimIsLost(steps: seq<Step>, t: State)
    requires Run(Lost0(), steps, t) && AllClean(steps)
    ensures CleanReachable(Lost0())
    ensures 1 in t.rows && t.rows[1].status.Inprog? && 0 in t.batches && !t.batches[0].done
  {
    LostReached();
    Cl.StrandedForever(Lost0(), steps, t, 1);
  }

  // Two recoveries of one dead instance with separate steps.

  lemma CleanIsReachable(s: State)
    requires CleanReachable(s)
    ensures Reachable(s)
  {}

  function Twice0(): State {
    State(1, map[1 := R(1, Inprog, 1, true, 1, 0), 2 := R(2, Queued, 0, false, 0, 0)],
          map[0 := Fresh(Inprog)],
          map[1 := Inst(Dead, true, false, {1}), 2 := Inst(Idle, true, true, {})],
          map[], map[10 := Rec(1, HasRead, {1})], {}, {}, {1}, {}, 1, 0, 0)
  }

  lemma Twice0Leads()
    ensures Leads(Race6(), Recovery(ReadIds(10, 1)), Twice0())
  {}

  function Twice1(): State {
    State(1, map[1 := R(1, Inprog, 1, true, 1, 0), 2 := R(2, Queued, 0, false, 0, 0)],
          map[0 := Fresh(Inprog)],
          map[1 := Inst(Dead, true, false, {1}), 2 := Inst(Idle, true, true, {})],
          map[], map[10 := Rec(1, HasRead, {1}), 11 := Rec(1, HasRead, {1})], {}, {}, {1}, {}, 1, 0, 0)
  }

  lemma Twice1Leads()
    ensures Leads(Twice0(), Recovery(ReadIds(11, 1)), Twice1())
  {}

  function Twice2(): State {
    State(1, map[1 := R(1, Queued, 1, false, 1, 1), 2 := R(2, Queued, 0, false, 0, 0)],
          map[0 := Fresh(Inprog)],
          map[1 := Inst(Dead, true, false, {1}), 2 := Inst(Idle, true, true, {})],
          map[], map[10 := Rec(1, HasReset, {1}), 11 := Rec(1, HasRead, {1})], {}, {}, {1}, {}, 1, 1, 0)
  }

  lemma Twice2Leads()
    ensures Leads(Twice1(), Recovery(Reset(10)), Twice2())
  {
    var s := Twice1();
    assert Resettable(s, {1}) == {1};
    assert ResetRows(s.rows, {1}) == map[1 := R(1, Queued, 1, false, 1, 1), 2 := R(2, Queued, 0, false, 0, 0)];
  }

  function Twice3(): State {
    State(1, map[1 := R(1, Inprog, 2, true, 2, 1), 2 := R(2, Queued, 0, false, 0, 0)],
          map[0 := Fresh(Inprog)],
          map[1 := Inst(Dead, true, false, {1}), 2 := Inst(Tracking({1}, {1}), true, true, {})],
          map[], map[10 := Rec(1, HasReset, {1}), 11 := Rec(1, HasRead, {1})], {}, {}, {1}, {}, 2, 1, 0)
  }

  lemma Twice3Leads()
    ensures Leads(Twice2(), Block(2, Claim({1})), Twice3())
  {}

  function Twice4(): State {
    State(1, map[1 := R(1, Inprog, 2, true, 2, 1), 2 := R(2, Queued, 0, false, 0, 0)],
          map[0 := Fresh(Inprog)],
          map[1 := Inst(Dead, true, false, {1}), 2 := Inst(Looping({1}, {1}, Between, {}), true, true, {1})],
          map[], map[10 := Rec(1, HasReset, {1}), 11 := Rec(1, HasRead, {1})], {}, {}, {1}, {}, 2, 1, 0)
  }

  lemma Twice4Leads()
    ensures Leads(Twice3(), Block(2, Track(1)), Twice4())
  {
    var s := Twice3();
    assert {1} - {1} == {};
    assert {} + {1} == {1};
  }

  function Twice5(): State {
    State(1, map[1 := R(1, Queued, 2, false, 2, 2), 2 := R(2, Queued, 0, false, 0, 0)],
          map[0 := Fresh(Inprog)],
          map[1 := Inst(Dead, true, false, {1}), 2 := Inst(Looping({1}, {1}, Between, {}), true, true, {1})],
          map[], map[10 := Rec(1, HasReset, {1}), 11 := Rec(1, HasReset, {1})], {}, {}, {1}, {}, 2, 2, 0)
  }

  lemma Twice5Leads()
    ensures Leads(Twice4(), Recovery(Reset(11)), Twice5())
  {
    var s := Twice4();
    assert Resettable(s, {1}) == {1};
    assert ResetRows(s.rows, {1}) == map[1 := R(1, Queued, 2, false, 2, 2), 2 := R(2, Queued, 0, false, 0, 0)];
  }

  function Twice6(): State {
    State(1, map[1 := R(1, Queued, 2, false, 2, 2), 2 := R(2, Queued, 0, false, 0, 0)],
          map[0 := Fresh(Inprog)],
          map[1 := Inst(Dead, true, false, {1}), 2 := Inst(Looping({1}, {1}, Between, {}), true, true, {1}),
              3 := Inst(Idle, true, true, {})],
          map[], map[10 := Rec(1, HasReset, {1}), 11 := Rec(1, HasReset, {1})], {}, {}, {1}, {}, 2, 2, 0)
  }

  lemma Twice6Leads()
    ensures Leads(Twice5(), Life(3, Start), Twice6())
  {}

  function Twice7(): State {
    State(1, map[1 := R(1, Inprog, 3, true, 3, 2), 2 := R(2, Queued, 0, false, 0, 0)],
          map[0 := Fresh(Inprog)],
          map[1 := Inst(Dead, true, false, {1}), 2 := Inst(Looping({1}, {1}, Between, {}), true, true, {1}),
              3 := Inst(Tracking({1}, {1}), true, true, {})],
          map[], map[10 := Rec(1, HasReset, {1}), 11 := Rec(1, HasReset, {1})], {}, {}, {1}, {}, 3, 2, 0)
  }

  lemma Twice7Leads()
    ensures Leads(Twice6(), Block(3, Claim({1})), Twice7())
  {}

  lemma TwiceReached()
    ensures Reachable(Twice4()) && Reachable(Twice7())
  {
    DeadReached();
    CleanIsReachable(Race6());
    Twice0Leads();
    Next(Race6(), Recovery(ReadIds(10, 1)), Twice0());
    Twice1Leads();
    Next(Twice0(), Recovery(ReadIds(11, 1)), Twice1());
    Twice2Leads();
    Next(Twice1(), Recovery(Reset(10)), Twice2());
    Twice3Leads();
    Next(Twice2(), Block(2, Claim({1})), Twice3());
    Twice4Leads();
    Next(Twice3(), Block(2, Track(1)), Twice4());
    Twice5Leads();
    Next(Twice4(), Recovery(Reset(11)), Twice5());
    Twice6Leads();
    Next(Twice5(), Life(3, Start), Twice6());
    Twice7Leads();
    Next(Twice6(), Block(3, Claim({1})), Twice7());
  }

  lemma SecondResetHitsLive()
    ensures Enabled(Twice4(), Recovery(Reset(11))) && !Own.SparesLive(Twice4(), Recovery(Reset(11)))
  {
    Twice5Leads();
    var s := Twice4();
    assert Resettable(s, {1}) == {1};
    assert 1 in ResetIds(s, Recovery(Reset(11))) && s.rows[1].owner == 2;
  }

  /**
   Exclusive ownership fails with recovery in separate steps: the second of two recoveries resets
   a row that a live worker holds, and two live workers then have it to run.
   */
  lemma TwoOwnersWithSeparateRecovery()
    ensures Reachable(Twice4()) && Reachable(Twice7())
    ensures Enabled(Twice4(), Recovery(Reset(11))) && !Own.SparesLive(Twice4(), Recovery(Reset(11)))
    ensures !Own.Exclusive(Apply(Twice4(), Recovery(Reset(11))))
    ensures forall i :: i in {2, 3} ==>
              i in Twice7().insts && Alive(Twice7().insts[i].worker) && 1 in Own.Unrun(Twice7().insts[i].worker)
  {
    TwiceReached();
    SecondResetHitsLive();
    NoLoss.ReachableInv(Twice4());
    Own.LiveResetBreaks(Twice4(), Recovery(Reset(11)));
  }
}
