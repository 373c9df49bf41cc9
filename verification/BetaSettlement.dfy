/** What a settled case says about its result. A worker that fails between compiling a result and storing
    it settles the case, under its token alone, with that result's status. */
module BetaSettlement {
  import opened Options
  import opened BetaTables
  import opened BetaProtocol
  import opened BetaInvariant
  import opened BetaPreservation
  import opened BetaTheorems

  /** The case claims an outcome, but no result is stored. */
  predicate Resultless(row: CaseRow) { row.state in {Complete, Inconclusive, Unsupported} && row.result.None? }

  /** The failing worker still owns the case's token, and has in hand a result that was never stored. */
  predicate LateFailure(s: State, t: Token, c: CaseId) {
    t in s.workers && c in s.db.cases &&
    var w, row := s.workers[t], s.db.cases[c];
    && w.row.caseId == c && w.phase.Failing? && w.phase.code !in {PausedCode, EvidenceStale}
    && row.leaseToken == Some(t) && row.revision == w.row.revision && !row.deleted
    && w.result.Some? && w.result.value.status != StatusFailed && row.result.None?
  }

  ghost predicate BecomesResultless(a: Db, b: Db, c: CaseId) {
    c in b.cases && Resultless(b.cases[c]) && !(c in a.cases && Resultless(a.cases[c]))
  }

  // ---------- which steps settle a case without a result ----------

  lemma FencedWritesKeep(db: Db, w: Claimed, v: Verdict, code: FailureCode, r: Result, terminal: bool, c: CaseId)
    ensures !BecomesResultless(db, SaveSafetyTx(db, w, v).0, c)
    ensures !BecomesResultless(db, SettleSafetyTx(db, w, v).0, c)
    ensures !BecomesResultless(db, SettleDisabledTx(db, w, code).0, c)
    ensures !BecomesResultless(db, SaveResultTx(db, w, r, terminal).0, c)
  {
  }

  lemma WorkerSettles(s: State, t: Token, action: Action, c: CaseId)
    requires Inv(s) && t in s.workers
    ensures BecomesResultless(s.db, ApplyWorker(s, t, action).db, c) <==> action == SettleFailure && LateFailure(s, t, c)
  {
    assert WorkerRowOk(s, t);
    if c in s.db.cases { assert LeaseShape(s.db.cases[c]); }
    hide Inv, WorkerRowOk, ApplyWorker;
    if action == SettleFailure {
      SettlesLate(s, t, c);
    } else if WritesCase(action) {
      hide BecomesResultless;
      FencedActionsKeep(s, t, action, c);
    } else {
      KeepsCases(s, t, action);
      hide LateFailure;
    }
  }

  lemma FencedActionsKeep(s: State, t: Token, action: Action, c: CaseId)
    requires t in s.workers && WritesCase(action) && action != SettleFailure
    ensures !BecomesResultless(s.db, ApplyWorker(s, t, action).db, c)
  {
    hide SaveSafetyTx, SettleSafetyTx, SettleDisabledTx, SaveResultTx;
    var w := s.workers[t];
    var p := w.phase;
    var none := Result(StatusFailed, false, NotRun);
    match action {
      case SaveCompiled => if w.result.Some? { FencedWritesKeep(s.db, w.row, Allow, Stale, w.result.value, false, c); }
      case SaveFinal => if w.result.Some? { FencedWritesKeep(s.db, w.row, Allow, Stale, w.result.value, true, c); }
      case SettleDisabled(code) => FencedWritesKeep(s.db, w.row, Allow, code, none, false, c);
      case SaveSafety => if p.HasSafety? { FencedWritesKeep(s.db, w.row, p.verdict, Stale, none, false, c); }
      case SettleSafety => if p.SafetySaved? { FencedWritesKeep(s.db, w.row, p.verdict, Stale, none, false, c); }
    }
  }

  lemma SettlesLate(s: State, t: Token, c: CaseId)
    requires t in s.workers && s.workers[t].row.token == t
    requires c in s.db.cases && s.db.cases[c].leaseToken.Some? ==> s.db.cases[c].state == Analyzing
    ensures BecomesResultless(s.db, ApplyWorker(s, t, SettleFailure).db, c) <==> LateFailure(s, t, c)
  {
  }

  lemma OthersNeverSettle(s: State, e: Event, c: CaseId)
    requires !e.Work?
    ensures !BecomesResultless(s.db, Apply(s, e).db, c)
  {
    SweepOnlyJournal(s.db);
    hide SweepStepsTx, SweptStep, Busy;
  }

  lemma SweepOnlyJournal(db: Db)
    ensures SweepStepsTx(db).cases == db.cases
  {
  }

  // ---------- the stale code means that time is up ----------

  ghost predicate TimeUp(s: State, t: Token)
    requires t in s.workers && s.workers[t].row.caseId in s.db.cases
  {
    s.workers[t].row.leaseUntil <= s.db.now || s.db.cases[s.workers[t].row.caseId].expiresAt <= s.db.now
  }

  /** Whoever failed with the stale code and still owns its token has run out of time. */
  ghost predicate StaleIsLate(s: State, t: Token)
    requires t in s.workers
  {
    var w := s.workers[t];
    w.phase == Failing(Stale) && w.row.caseId in s.db.cases && s.db.cases[w.row.caseId].leaseToken == Some(t) ==> TimeUp(s, t)
  }

  ghost predicate AllLate(s: State) { forall t | t in s.workers :: StaleIsLate(s, t) }

  /** A failed fence under one's own token means that the time is up. */
  lemma RefusedMeansLate(s: State, t: Token)
    requires Inv(s) && t in s.workers && s.workers[t].row.caseId in s.db.cases
    requires s.db.cases[s.workers[t].row.caseId].leaseToken == Some(t) && !Fence(s.db, s.workers[t].row)
    ensures TimeUp(s, t)
  {
    var c := s.workers[t].row.caseId;
    assert LeaseShape(s.db.cases[c]) && TokenOwned(s, c) && WorkerRowOk(s, t);
  }

  lemma OthersKeepLate(s: State, e: Event)
    requires !e.Work? && Inv(s) && AllLate(s)
    ensures AllLate(Apply(s, e))
  {
    TablesEvolve(s, e);
    var s' := Apply(s, e);
    forall t | t in s'.workers ensures StaleIsLate(s', t) {
      if t in s.workers {
        assert WorkerRowOk(s, t) && StaleIsLate(s, t);
        var c := s.workers[t].row.caseId;
        OthersGiveNoOldLease(s, e, c);
        WorkersStay(s, e, t);
        assert CaseEvolves(s.db.cases[c], s'.db.cases[c]);
        hide Inv, Apply, AllLate, Evolves;
      } else {
        NewClaim(s, e, t);
      }
    }
  }

  lemma WorkersStay(s: State, e: Event, t: Token)
    requires !e.Work? && t in s.workers
    ensures t in Apply(s, e).workers && Apply(s, e).workers[t] == s.workers[t]
  {
    hide Busy, Claimable;
  }

  lemma NewClaim(s: State, e: Event, t: Token)
    requires !e.Work? && t in Apply(s, e).workers && t !in s.workers
    ensures Apply(s, e).workers[t].phase == Ready
  {
    hide Busy, Claimable;
  }

  /** A worker comes to fail with the stale code only on a failed fence, and writes nothing then. */
  lemma OwnStep(s: State, t: Token, action: Action)
    requires t in s.workers
    ensures var s' := ApplyWorker(s, t, action);
            && t in s'.workers && s'.workers[t].row == s.workers[t].row
            && (s'.workers[t].phase == Failing(Stale) ==>
                  s' == s || (s'.db.cases == s.db.cases && !Fence(s.db, s.workers[t].row)))
  {
    hide CompleteTx, AbandonTx, SaveSafetyTx, SettleSafetyTx, SettleDisabledTx, SettleFailureTx, Fence, MayBegin, RecordedCount, LastStep;
  }

  lemma OwnKeepsLate(s: State, u: Token, action: Action)
    requires u in s.workers && Inv(s) && StaleIsLate(s, u)
    ensures u in ApplyWorker(s, u, action).workers && StaleIsLate(ApplyWorker(s, u, action), u)
  {
    var s' := ApplyWorker(s, u, action);
    WorkerWrites(s, u, action);
    OwnStep(s, u, action);
    assert WorkerRowOk(s, u);
    var c := s.workers[u].row.caseId;
    assert CaseEvolves(s.db.cases[c], s'.db.cases[c]);
    if s.db.cases[c].leaseToken == Some(u) && !Fence(s.db, s.workers[u].row) { RefusedMeansLate(s, u); }
    hide Inv, ApplyWorker, Evolves, Fence, OwnRowUpdate;
  }

  /** A worker's step gives no other worker a lease and moves no deadline. */
  lemma BystanderRow(db: Db, db': Db, w: Claimed, c: CaseId, t: Token)
    requires c in db.cases && t != w.token && Evolves(db, db') && (db'.cases == db.cases || OwnRowUpdate(db, w, db'))
    ensures c in db'.cases && db.now <= db'.now && db'.cases[c].expiresAt == db.cases[c].expiresAt
    ensures db'.cases[c].leaseToken == Some(t) ==> db.cases[c].leaseToken == Some(t)
  {
    assert CaseEvolves(db.cases[c], db'.cases[c]);
  }

  lemma BystanderKeepsLate(s: State, u: Token, action: Action, t: Token)
    requires u in s.workers && t in s.workers && t != u && Inv(s) && StaleIsLate(s, t)
    ensures t in ApplyWorker(s, u, action).workers && StaleIsLate(ApplyWorker(s, u, action), t)
  {
    assert WorkerRowOk(s, t) && WorkerRowOk(s, u);
    hide Inv, ApplyWorker, Evolves, OwnRowUpdate;
    WorkerWrites(s, u, action);
    OthersUntouched(s, u, action, t);
    ClaimsAreKept(s, u, action);
    BystanderRow(s.db, ApplyWorker(s, u, action).db, s.workers[u].row, s.workers[t].row.caseId, t);
  }

  lemma WorkersKeepLate(s: State, u: Token, action: Action)
    requires u in s.workers && Inv(s) && AllLate(s)
    ensures AllLate(ApplyWorker(s, u, action))
  {
    var s' := ApplyWorker(s, u, action);
    ClaimsAreKept(s, u, action);
    forall t | t in s'.workers ensures StaleIsLate(s', t) {
      assert StaleIsLate(s, t);
      hide Inv, ApplyWorker, AllLate, StaleIsLate;
      if t == u { OwnKeepsLate(s, u, action); } else { BystanderKeepsLate(s, u, action, t); }
    }
  }

  lemma OthersUntouched(s: State, u: Token, action: Action, t: Token)
    requires u in s.workers && t in s.workers && t != u
    ensures ApplyWorker(s, u, action).workers[t] == s.workers[t]
  {
    hide BeginTx, CompleteTx, AbandonTx, SaveSafetyTx, SettleSafetyTx, SettleDisabledTx, SaveResultTx, SettleFailureTx;
    hide MayBegin, RecordedCount;
  }

  lemma {:induction false} RunKeepsLate(es: seq<Event>)
    ensures AllLate(Run(Init(), es))
  {
    if |es| > 0 {
      var s, e := Run(Init(), es[..|es| - 1]), es[|es| - 1];
      RunKeepsLate(es[..|es| - 1]);
      RunKeepsInvariant(es[..|es| - 1]);
      if !e.Work? { OthersKeepLate(s, e); } else if e.worker in s.workers { WorkersKeepLate(s, e.worker, e.action); }
      hide Inv, AllLate, ApplyWorker;
    }
  }

  /** In every run, a case comes to claim an outcome without a stored result exactly by the failure write
      of a worker that still owns its token and holds a result that was never stored. If that worker
      failed with the stale code, its lease or the case's own time has run out; with any other code the
      lease may still be live. */
  lemma ResultlessExactly(es: seq<Event>, e: Event, c: CaseId)
    ensures var s := Run(Init(), es);
            && (BecomesResultless(s.db, Apply(s, e).db, c) <==>
                  e.Work? && e.action == SettleFailure && LateFailure(s, e.worker, c))
            && (e.Work? && LateFailure(s, e.worker, c) && Fence(s.db, s.workers[e.worker].row) ==>
                  s.workers[e.worker].phase.code != Stale)
  {
    var s := Run(Init(), es);
    RunKeepsInvariant(es);
    RunKeepsLate(es);
    if !e.Work? {
      OthersNeverSettle(s, e, c);
    } else if e.worker in s.workers {
      WorkerSettles(s, e.worker, e.action, c);
      assert StaleIsLate(s, e.worker);
      if LateFailure(s, e.worker, c) { assert TokenOwned(s, c); }
    }
    hide Inv, ApplyWorker, Run;
  }

  // ---------- and it stays that way ----------

  lemma OthersLeaveResultless(s: State, e: Event, c: CaseId)
    requires !e.Work? && c in s.db.cases && LeaseShape(s.db.cases[c]) && Resultless(s.db.cases[c]) && e != Cancel(c) && e != Tombstone(c)
    ensures c in Apply(s, e).db.cases && Apply(s, e).db.cases[c] == s.db.cases[c]
  {
    SweepOnlyJournal(s.db);
    hide SweepStepsTx, SweptStep, Busy, LastStep;
  }

  lemma ResultlessStays(s: State, e: Event, c: CaseId)
    requires Inv(s) && c in s.db.cases && Resultless(s.db.cases[c]) && e != Cancel(c) && e != Tombstone(c)
    ensures c in Apply(s, e).db.cases && Apply(s, e).db.cases[c] == s.db.cases[c]
  {
    assert LeaseShape(s.db.cases[c]);
    hide Inv, ApplyWorker;
    if !e.Work? {
      OthersLeaveResultless(s, e, c);
      hide Apply;
    } else if e.worker in s.workers {
      WorkerWrites(s, e.worker, e.action);
    }
  }

  /** No retry, no advice, no claim and no sweep ever moves such a case again: it stays exactly as it is
      until its owner cancels or deletes it. */
  lemma {:induction false} ResultlessForGood(es: seq<Event>, later: seq<Event>, c: CaseId)
    requires c in Run(Init(), es).db.cases && Resultless(Run(Init(), es).db.cases[c])
    requires forall e | e in later :: e != Cancel(c) && e != Tombstone(c)
    ensures var s := Run(Run(Init(), es), later);
            Inv(s) && c in s.db.cases && s.db.cases[c] == Run(Init(), es).db.cases[c]
  {
    RunKeepsInvariant(es);
    if |later| > 0 {
      var init := later[..|later| - 1];
      assert forall e | e in init :: e in later;
      assert later[|later| - 1] in later;
      ResultlessForGood(es, init, c);
      StepKeeps(Run(Run(Init(), es), init), later[|later| - 1]);
      ResultlessStays(Run(Run(Init(), es), init), later[|later| - 1], c);
    }
  }

  // ---------- a run that gets there ----------

  const PASS := Output(Allow, 0)
  const COMPILED := Result(StatusComplete, true, NotRun)
  const HELD := Claimed(0, 1, 7, 300, None)

  const CLAIMING: seq<Event> := [Create(0), Finalise(0), Claim(0, 1, 7, Analysis)]

  function Paid(name: StepName): seq<Event> { [Work(7, Begin(name, 5)), Work(7, Execute), Work(7, Finish(PASS, true))] }

  /** A worker that has its first two paid steps behind it. */
  function Analysed(): seq<Event> {
    CLAIMING + Paid(SafetyStep) + [Work(7, SaveSafety)] + Paid(SafeStep) + [Work(7, Compile(COMPILED))]
  }

  const LATE: seq<Event> := [Tick(301), Work(7, SaveCompiled), Work(7, SettleFailure)]
  const LIVE: seq<Event> := [Work(7, Throw(ExecutionFailed)), Work(7, SettleFailure)]

  function Leased(safety: Option<Verdict>): CaseRow { CaseRow(1, Analyzing, Some(7), Some(300), 1, 900, false, safety, None, None) }

  function Journalled(name: StepName): StepRow { StepRow(0, 1, name, Completed, 5, Some(PASS)) }

  /** The one case under its one lease, and its worker. */
  function At(now: int, row: CaseRow, steps: seq<StepRow>, w: Worker, calls: multiset<(CaseId, StepName)>): State {
    State(Db(now, map[0 := row], steps), map[7 := w], multiset{0}, calls)
  }

  lemma Claims()
    ensures Apply(Apply(Apply(Init(), Create(0)), Finalise(0)), Claim(0, 1, 7, Analysis))
            == At(0, Leased(None), [], Worker(HELD, Analysis, None, Ready), multiset{})
  {
    var queued := CaseRow(1, Queued, None, None, 0, 900, false, None, None, None);
    var s := State(Db(0, map[0 := queued], []), map[], multiset{}, multiset{});
    assert Apply(Apply(Init(), Create(0)), Finalise(0)) == s;
    QueuedClaims(queued);
  }

  lemma QueuedClaims(queued: CaseRow)
    requires queued == CaseRow(1, Queued, None, None, 0, 900, false, None, None, None)
    ensures Apply(State(Db(0, map[0 := queued], []), map[], multiset{}, multiset{}), Claim(0, 1, 7, Analysis))
            == At(0, Leased(None), [], Worker(HELD, Analysis, None, Ready), multiset{})
  {
    var s := State(Db(0, map[0 := queued], []), map[], multiset{}, multiset{});
    assert !Busy(s.db) && Claimable(s.db, 0, 1);
  }

  lemma Begins(safety: Option<Verdict>, steps: seq<StepRow>, w: Worker, calls: multiset<(CaseId, StepName)>, name: StepName)
    requires w.row == HELD && MayBegin(w, name) && LastStep(steps, 0, name).None?
    ensures Apply(At(0, Leased(safety), steps, w, calls), Work(7, Begin(name, 5)))
            == At(0, Leased(safety), steps + [StepRow(0, 1, name, Started, 5, None)], w.(phase := InStep(name, |steps|, false)), calls)
  {
    hide MayBegin, LastStep, AfterStep, AfterFailedStep;
    assert Fence(At(0, Leased(safety), steps, w, calls).db, HELD);
  }

  lemma Executes(row: CaseRow, steps: seq<StepRow>, w: Worker, calls: multiset<(CaseId, StepName)>, name: StepName, id: nat)
    requires w.row == HELD && w.phase == InStep(name, id, false)
    ensures Apply(At(0, row, steps, w, calls), Work(7, Execute))
            == At(0, row, steps, w.(phase := InStep(name, id, true)), calls + multiset{(0, name)})
  {
  }

  lemma Finishes(safety: Option<Verdict>, steps: seq<StepRow>, w: Worker, calls: multiset<(CaseId, StepName)>, name: StepName)
    requires w.row == HELD && w.phase == InStep(name, |steps|, true)
    ensures Apply(At(0, Leased(safety), steps + [StepRow(0, 1, name, Started, 5, None)], w, calls), Work(7, Finish(PASS, true)))
            == At(0, Leased(safety), steps + [Journalled(name)], AfterStep(w, name, PASS), calls)
  {
    hide AfterStep;
    var started := steps + [StepRow(0, 1, name, Started, 5, None)];
    assert Fence(At(0, Leased(safety), started, w, calls).db, HELD);
    assert started[|steps| := Journalled(name)] == steps + [Journalled(name)];
  }

  /** A paid step within the lease, begun for the first time. */
  lemma PaidStep(safety: Option<Verdict>, steps: seq<StepRow>, w: Worker, calls: multiset<(CaseId, StepName)>, name: StepName)
    requires w.row == HELD && MayBegin(w, name) && LastStep(steps, 0, name).None?
    ensures Apply(Apply(Apply(At(0, Leased(safety), steps, w, calls), Work(7, Begin(name, 5))), Work(7, Execute)), Work(7, Finish(PASS, true)))
            == At(0, Leased(safety), steps + [Journalled(name)], AfterStep(w, name, PASS), calls + multiset{(0, name)})
  {
    hide Apply, MayBegin, LastStep, At;
    Begins(safety, steps, w, calls, name);
    Executes(Leased(safety), steps + [StepRow(0, 1, name, Started, 5, None)], w.(phase := InStep(name, |steps|, false)), calls, name, |steps|);
    Finishes(safety, steps, w.(phase := InStep(name, |steps|, true)), calls + multiset{(0, name)}, name);
  }

  lemma SavesSafety(steps: seq<StepRow>, calls: multiset<(CaseId, StepName)>)
    ensures Apply(At(0, Leased(None), steps, Worker(HELD, Analysis, None, HasSafety(Allow)), calls), Work(7, SaveSafety))
            == At(0, Leased(Some(Allow)), steps, Worker(HELD, Analysis, None, SafetySaved(Allow)), calls)
  {
    assert Fence(Db(0, map[0 := Leased(None)], steps), HELD);
  }

  /** The state after both paid steps, with a result in hand. */
  function InHand(now: int, phase: Phase): State {
    At(now, Leased(Some(Allow)), [Journalled(SafetyStep), Journalled(SafeStep)], Worker(HELD, Analysis, Some(COMPILED), phase),
       multiset{(0, SafetyStep)} + multiset{(0, SafeStep)})
  }

  lemma Fails(now: int, code: FailureCode)
    requires code !in {PausedCode, EvidenceStale}
    ensures var end := Apply(InHand(now, Failing(code)), Work(7, SettleFailure));
            0 in end.db.cases && Resultless(end.db.cases[0])
  {
  }

  lemma SavesTooLate()
    ensures Apply(Apply(InHand(0, Compiled), Tick(301)), Work(7, SaveCompiled)) == InHand(301, Failing(Stale))
  {
    var s := InHand(301, Compiled);
    assert !Fence(s.db, HELD);
    assert Apply(InHand(0, Compiled), Tick(301)) == s;
  }

  lemma ThrowsInTime()
    ensures Apply(InHand(0, Compiled), Work(7, Throw(ExecutionFailed))) == InHand(0, Failing(ExecutionFailed))
    ensures Fence(InHand(0, Failing(ExecutionFailed)).db, HELD)
  {
  }

  lemma ClaimedRun()
    ensures Run(Init(), CLAIMING) == At(0, Leased(None), [], Worker(HELD, Analysis, None, Ready), multiset{})
  {
    RunThree(Init(), CLAIMING[0], CLAIMING[1], CLAIMING[2]);
    hide Apply, Run, At, Leased;
    Claims();
  }

  lemma PaidRun(safety: Option<Verdict>, steps: seq<StepRow>, w: Worker, calls: multiset<(CaseId, StepName)>, name: StepName)
    requires w.row == HELD && MayBegin(w, name) && LastStep(steps, 0, name).None?
    ensures Run(At(0, Leased(safety), steps, w, calls), Paid(name))
            == At(0, Leased(safety), steps + [Journalled(name)], AfterStep(w, name, PASS), calls + multiset{(0, name)})
  {
    hide Apply, Run, At, Leased, MayBegin, LastStep, AfterStep;
    RunThree(At(0, Leased(safety), steps, w, calls), Paid(name)[0], Paid(name)[1], Paid(name)[2]);
    PaidStep(safety, steps, w, calls, name);
  }

  /** The first half: claimed, and the safety step passed. */
  lemma ScreenedRun()
    ensures Run(Init(), CLAIMING + Paid(SafetyStep) + [Work(7, SaveSafety)])
            == At(0, Leased(Some(Allow)), [Journalled(SafetyStep)], Worker(HELD, Analysis, None, SafetySaved(Allow)), multiset{(0, SafetyStep)})
  {
    var s := At(0, Leased(None), [], Worker(HELD, Analysis, None, Ready), multiset{});
    var one := [Journalled(SafetyStep)];
    assert [] + one == one && multiset{} + multiset{(0, SafetyStep)} == multiset{(0, SafetyStep)};
    hide Apply, Run, At, Leased, Paid;
    RunConcat(Init(), CLAIMING, Paid(SafetyStep));
    RunConcat(Init(), CLAIMING + Paid(SafetyStep), [Work(7, SaveSafety)]);
    ClaimedRun();
    PaidRun(None, [], Worker(HELD, Analysis, None, Ready), multiset{}, SafetyStep);
    var t := At(0, Leased(None), one, Worker(HELD, Analysis, None, HasSafety(Allow)), multiset{(0, SafetyStep)});
    RunTwo(t, Work(7, SaveSafety), Work(7, SaveSafety));
    SavesSafety(one, multiset{(0, SafetyStep)});
  }

  lemma AnalysedRun()
    ensures Run(Init(), Analysed()) == InHand(0, Compiled)
  {
    var one := [Journalled(SafetyStep)];
    assert LastStep(one, 0, SafeStep).None? by { assert one[..0] == []; }
    assert one + [Journalled(SafeStep)] == [Journalled(SafetyStep), Journalled(SafeStep)];
    var calls := multiset{(0, SafetyStep)} + multiset{(0, SafeStep)};
    var screened := CLAIMING + Paid(SafetyStep) + [Work(7, SaveSafety)];
    hide Apply, LastStep, Run, At, Leased, Paid;
    ScreenedRun();
    RunConcat(Init(), screened, Paid(SafeStep));
    RunConcat(Init(), screened + Paid(SafeStep), [Work(7, Compile(COMPILED))]);
    PaidRun(Some(Allow), one, Worker(HELD, Analysis, None, SafetySaved(Allow)), multiset{(0, SafetyStep)}, SafeStep);
    var t := At(0, Leased(Some(Allow)), [Journalled(SafetyStep), Journalled(SafeStep)], Worker(HELD, Analysis, None, HasSafe), calls);
    RunTwo(t, Work(7, Compile(COMPILED)), Work(7, SaveSafety));
    CompilesAt(calls);
  }

  lemma CompilesAt(calls: multiset<(CaseId, StepName)>)
    ensures var steps := [Journalled(SafetyStep), Journalled(SafeStep)];
            Apply(At(0, Leased(Some(Allow)), steps, Worker(HELD, Analysis, None, HasSafe), calls), Work(7, Compile(COMPILED)))
            == At(0, Leased(Some(Allow)), steps, Worker(HELD, Analysis, Some(COMPILED), Compiled), calls)
  {
  }

  /** The lease of five minutes runs out between the finished safe step and the saving of its result. */
  lemma LateRun()
    ensures 0 in Run(Init(), Analysed() + LATE).db.cases && Resultless(Run(Init(), Analysed() + LATE).db.cases[0])
  {
    AnalysedRun();
    RunConcat(Init(), Analysed(), LATE);
    RunThree(InHand(0, Compiled), LATE[0], LATE[1], LATE[2]);
    SavesTooLate();
    Fails(301, Stale);
    hide Run, Apply, Analysed, Resultless, InHand;
  }

  /** Saving the result throws for a reason of its own while the lease is live. */
  lemma LiveRun()
    ensures var es := Analysed() + LIVE;
            var s := Run(Init(), Analysed() + LIVE[..1]);
            && 7 in s.workers && Fence(s.db, s.workers[7].row)
            && 0 in Run(Init(), es).db.cases && Resultless(Run(Init(), es).db.cases[0])
  {
    AnalysedRun();
    var s := InHand(0, Compiled);
    RunConcat(Init(), Analysed(), LIVE);
    RunConcat(Init(), Analysed(), LIVE[..1]);
    RunTwo(s, LIVE[0], LIVE[1]);
    assert LIVE[..1] == [LIVE[0]];
    ThrowsInTime();
    Fails(0, ExecutionFailed);
    assert 7 in InHand(0, Failing(ExecutionFailed)).workers && InHand(0, Failing(ExecutionFailed)).workers[7].row == HELD;
    hide Run, Apply, Analysed, Resultless, InHand, Fence;
  }

  lemma RunTwo(s: State, a: Event, b: Event)
    ensures Run(s, [a]) == Apply(s, a) && Run(s, [a, b]) == Apply(Apply(s, a), b)
  {
    hide Apply;
    assert [a][..0] == [] && [a, b][..1] == [a];
    assert Run(s, [a][..0]) == s;
  }

  lemma RunThree(s: State, a: Event, b: Event, c: Event)
    ensures Run(s, [a, b, c]) == Apply(Apply(Apply(s, a), b), c)
  {
    hide Apply;
    RunTwo(s, a, b);
    assert [a, b, c][..2] == [a, b];
  }
}
