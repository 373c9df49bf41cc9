/** What holds over every run of the authenticity beta: any interleaving of redelivered events,
    lease expiry, re-claims, crashes, sweeps, administrator and owner actions. */
module BetaTheorems {
  import opened Options
  import opened BetaTables
  import opened BetaProtocol
  import opened BetaInvariant
  import opened BetaPreservation

  lemma {:induction false} RunKeepsInvariant(es: seq<Event>)
    ensures Inv(Run(Init(), es))
  {
    if |es| > 0 {
      RunKeepsInvariant(es[..|es| - 1]);
      StepKeeps(Run(Init(), es[..|es| - 1]), es[|es| - 1]);
    }
  }

  // ---------- two-state facts, lifted to runs ----------

  lemma JournalWritesEvolve(db: Db, w: Claimed, name: StepName, key: nat, id: nat, output: Output)
    ensures Evolves(db, BeginTx(db, w, name, key).0) && BeginTx(db, w, name, key).0.cases == db.cases
    ensures Evolves(db, CompleteTx(db, w, id, output).0) && CompleteTx(db, w, id, output).0.cases == db.cases
    ensures Evolves(db, AbandonTx(db, id)) && AbandonTx(db, id).cases == db.cases
  {
  }

  /** Every case-row write of a worker updates the one row that still carries its token. */
  ghost predicate OwnRowUpdate(db: Db, w: Claimed, db': Db) {
    db' == db ||
      (&& w.caseId in db.cases && w.caseId in db'.cases
       && db.cases[w.caseId].leaseToken == Some(w.token)
       && CaseEvolves(db.cases[w.caseId], db'.cases[w.caseId])
       && (db'.cases[w.caseId].leaseToken == Some(w.token) || db'.cases[w.caseId].leaseToken == None)
       && db' == db.(cases := db.cases[w.caseId := db'.cases[w.caseId]]))
  }

  lemma OwnRowUpdateEvolves(db: Db, w: Claimed, db': Db)
    requires OwnRowUpdate(db, w, db')
    ensures Evolves(db, db')
  {
  }

  lemma CaseWritesAreOwn(db: Db, w: Claimed, v: Verdict, code: FailureCode, r: Result, terminal: bool, o: Option<Result>)
    ensures OwnRowUpdate(db, w, SaveSafetyTx(db, w, v).0)
    ensures OwnRowUpdate(db, w, SettleSafetyTx(db, w, v).0)
    ensures OwnRowUpdate(db, w, SettleDisabledTx(db, w, code).0)
    ensures OwnRowUpdate(db, w, SaveResultTx(db, w, r, terminal).0)
    ensures OwnRowUpdate(db, w, SettleFailureTx(db, w, code, o))
  {
  }

  /** The actions that write the case row; all others write the journal or nothing. */
  predicate WritesCase(action: Action) {
    action.SaveSafety? || action.SettleSafety? || action.SettleDisabled? || action.SaveCompiled? || action.SaveFinal? || action.SettleFailure?
  }

  lemma KeepsCases(s: State, t: Token, action: Action)
    requires t in s.workers && !WritesCase(action)
    ensures var db := ApplyWorker(s, t, action).db; Evolves(s.db, db) && db.cases == s.db.cases
  {
    var w := s.workers[t];
    var p := w.phase;
    hide Evolves, BeginTx, CompleteTx, AbandonTx, AfterStep, AfterFailedStep, MayBegin, RecordedCount, Fence;
    UnchangedEvolves(s.db);
    match action {
      case Begin(name, key) => JournalWritesEvolve(s.db, w.row, name, key, 0, Output(Allow, 0));
      case Finish(output, _) => if p.InStep? { JournalWritesEvolve(s.db, w.row, SafetyStep, 0, p.id, output); }
      case Abandon => if p.Abandoning? { JournalWritesEvolve(s.db, w.row, SafetyStep, 0, p.id, Output(Allow, 0)); }
      case _ =>
    }
  }

  lemma UnchangedEvolves(db: Db)
    ensures Evolves(db, db)
  {
  }

  lemma CaseActionsAreOwn(s: State, t: Token, action: Action)
    requires t in s.workers && WritesCase(action)
    ensures OwnRowUpdate(s.db, s.workers[t].row, ApplyWorker(s, t, action).db)
  {
    var w := s.workers[t];
    var p := w.phase;
    var none := Result(StatusFailed, false, NotRun);
    hide SaveSafetyTx, SettleSafetyTx, SettleDisabledTx, SaveResultTx, SettleFailureTx, CaseEvolves;
    match action {
      case SaveCompiled => if w.result.Some? { CaseWritesAreOwn(s.db, w.row, Allow, Stale, w.result.value, false, None); }
      case SaveFinal => if w.result.Some? { CaseWritesAreOwn(s.db, w.row, Allow, Stale, w.result.value, true, None); }
      case SettleDisabled(code) => CaseWritesAreOwn(s.db, w.row, Allow, code, none, false, None);
      case SettleFailure => if p.Failing? { CaseWritesAreOwn(s.db, w.row, Allow, p.code, none, false, w.result); }
      case SaveSafety => if p.HasSafety? { CaseWritesAreOwn(s.db, w.row, p.verdict, Stale, none, false, None); }
      case SettleSafety => if p.SafetySaved? { CaseWritesAreOwn(s.db, w.row, p.verdict, Stale, none, false, None); }
    }
  }

  /** A worker step writes the journal or its own case row, never both. */
  lemma WorkerWrites(s: State, t: Token, action: Action)
    requires t in s.workers
    ensures var db := ApplyWorker(s, t, action).db;
            Evolves(s.db, db) && (db.cases == s.db.cases || OwnRowUpdate(s.db, s.workers[t].row, db))
  {
    hide ApplyWorker, Evolves, OwnRowUpdate;
    if WritesCase(action) {
      CaseActionsAreOwn(s, t, action);
      OwnRowUpdateEvolves(s.db, s.workers[t].row, ApplyWorker(s, t, action).db);
    } else {
      KeepsCases(s, t, action);
    }
  }

  lemma SweepsEvolve(db: Db)
    ensures Evolves(db, SweepStepsTx(db)) && Evolves(db, SweepExpiredTx(db)) && Evolves(db, SweepExhaustedTx(db))
  {
  }

  lemma ExpireOwnEvolves(db: Db, cs: set<CaseId>)
    ensures Evolves(db, ExpireOwnTx(db, cs))
  {
  }

  lemma OwnerWritesEvolve(db: Db, c: CaseId)
    ensures Evolves(db, CreateTx(db, c)) && Evolves(db, FinaliseTx(db, c)) && Evolves(db, CancelTx(db, c))
  {
  }

  lemma TombstoneEvolves(db: Db, c: CaseId)
    ensures Evolves(db, TombstoneTx(db, c))
  {
  }

  lemma AdminEvolves(db: Db, c: CaseId, current: bool)
    ensures Evolves(db, AdminRetryTx(db, c, current).0) && Evolves(db, AdminAdviceTx(db, c, current).0)
  {
  }

  /** Every event of the system evolves the tables. */
  lemma TablesEvolve(s: State, e: Event)
    ensures Evolves(s.db, Apply(s, e).db)
  {
    hide ApplyWorker, ClaimTx, SweepStepsTx, SweepExpiredTx, SweepExhaustedTx, ExpireOwnTx, AdminRetryTx, AdminAdviceTx;
    hide CreateTx, FinaliseTx, CancelTx, TombstoneTx;
    match e {
      case Tick(_) =>
      case Work(t, action) => if t in s.workers { WorkerWrites(s, t, action); }
      case Claim(c, revision, token, _) => ClaimEvolves(s.db, c, revision, token);
      case AdminRetry(c, current) => AdminEvolves(s.db, c, current);
      case AdminAdvice(c, current) => AdminEvolves(s.db, c, current);
      case Create(c) => OwnerWritesEvolve(s.db, c);
      case Finalise(c) => OwnerWritesEvolve(s.db, c);
      case Cancel(c) => OwnerWritesEvolve(s.db, c);
      case Tombstone(c) => TombstoneEvolves(s.db, c);
      case ExpireOwn(cs) => ExpireOwnEvolves(s.db, cs);
      case _ => SweepsEvolve(s.db);
    }
  }

  lemma {:induction false} RunEvolves(s: State, es: seq<Event>)
    ensures Evolves(s.db, Run(s, es).db)
  {
    if |es| > 0 {
      var m := Run(s, es[..|es| - 1]);
      RunEvolves(s, es[..|es| - 1]);
      TablesEvolve(m, es[|es| - 1]);
      EvolvesTransitive(s.db, m.db, Run(s, es).db);
    }
  }

  lemma {:induction false} RunConcat(s: State, xs: seq<Event>, ys: seq<Event>)
    ensures Run(s, xs + ys) == Run(Run(s, xs), ys)
  {
    if |ys| == 0 {
      assert xs + ys == xs;
    } else {
      assert (xs + ys)[..|xs + ys| - 1] == xs + ys[..|ys| - 1];
      RunConcat(s, xs, ys[..|ys| - 1]);
    }
  }

  // ---------- at most one provider call per case and step ----------

  /** Each paid step is journalled once and executed at most once per case, in every run. */
  lemma AtMostOnce(es: seq<Event>, c: CaseId, n: StepName)
    ensures var s := Run(Init(), es);
            && s.calls[(c, n)] <= 1
            && forall i: nat, j: nat :: RowFor(s.db.steps, i, c, n) && RowFor(s.db.steps, j, c, n) ==> i == j
  {
    RunKeepsInvariant(es);
  }

  /** A journalled row blocks its step forever: whatever happens next, it stays the only row of
      its case and step; an ambiguous row stays ambiguous, and a completed row keeps its output
      until the owner deletes the case. */
  lemma JournalIsFinal(es: seq<Event>, later: seq<Event>, i: nat)
    requires i < |Run(Init(), es).db.steps|
    ensures var a, b := Run(Init(), es).db, Run(Init(), es + later).db;
            && i < |b.steps|
            && b.steps[i].caseId == a.steps[i].caseId && b.steps[i].name == a.steps[i].name
            && (forall j: nat :: RowFor(b.steps, j, a.steps[i].caseId, a.steps[i].name) ==> j == i)
            && (a.steps[i].state != Started ==> b.steps[i].state == a.steps[i].state)
            && a.steps[i].caseId in b.cases
            && (a.steps[i].state == Completed && !b.cases[a.steps[i].caseId].deleted ==> b.steps[i].output == a.steps[i].output)
  {
    var a, b := Run(Init(), es).db, Run(Init(), es + later).db;
    RunConcat(Init(), es, later);
    RunEvolves(Run(Init(), es), later);
    assert StepEvolves(a, b, i);
    RunKeepsInvariant(es + later);
    assert GateOk(b, i);
  }

  // ---------- the fence ----------

  /** Whenever a completion passes the fence, its unchecked update hits exactly its own started row. */
  lemma FencedCompletionHitsItsRow(es: seq<Event>, t: Token, output: Output)
    requires var s := Run(Init(), es);
             t in s.workers && s.workers[t].phase.InStep? && Fence(s.db, s.workers[t].row)
    ensures var s := Run(Init(), es);
            var w := s.workers[t];
            var (db, ok) := CompleteTx(s.db, w.row, w.phase.id, output);
            && ok && db.cases == s.db.cases && |db.steps| == |s.db.steps|
            && RowFor(s.db.steps, w.phase.id, w.row.caseId, w.phase.name)
            && s.db.steps[w.phase.id].state == Started
            && db.steps[w.phase.id].state == Completed && db.steps[w.phase.id].output == Some(output)
            && forall i | 0 <= i < |s.db.steps| && i != w.phase.id :: db.steps[i] == s.db.steps[i]
  {
    RunKeepsInvariant(es);
    var s := Run(Init(), es);
    FenceMeansStarted(s, t);
    assert WorkerRowOk(s, t);
  }

  ghost predicate LostLease(s: State, t: Token) {
    t in s.workers && s.workers[t].row.caseId in s.db.cases && s.db.cases[s.workers[t].row.caseId].leaseToken != Some(t)
  }

  /** A worker step never renames a worker or changes what a worker claimed. */
  lemma ClaimsAreKept(s: State, u: Token, action: Action)
    requires u in s.workers
    ensures ApplyWorker(s, u, action).workers.Keys == s.workers.Keys
    ensures forall t | t in s.workers :: ApplyWorker(s, u, action).workers[t].row == s.workers[t].row
  {
    hide BeginTx, CompleteTx, AbandonTx, SaveSafetyTx, SettleSafetyTx, SettleDisabledTx, SaveResultTx, SettleFailureTx;
    hide MayBegin, Running, RecordedCount;
  }

  /** Outside the workers, only a claim gives out a lease, and always under a fresh token. */
  lemma OthersGiveNoOldLease(s: State, e: Event, c: CaseId)
    requires !e.Work? && c in s.db.cases
    ensures var s' := Apply(s, e);
            && c in s'.db.cases
            && (s'.db.cases[c].leaseToken == s.db.cases[c].leaseToken || s'.db.cases[c].leaseToken.None?
                || s'.db.cases[c].leaseToken.value !in s.workers)
            && forall t | t in s.workers :: t in s'.workers && s'.workers[t].row == s.workers[t].row
  {
  }

  lemma LostLeaseStaysLost(s: State, e: Event, t: Token)
    requires LostLease(s, t)
    requires forall u | u in s.workers :: s.workers[u].row.token == u
    ensures LostLease(Apply(s, e), t) && Apply(s, e).workers[t].row == s.workers[t].row
  {
    if !e.Work? {
      OthersGiveNoOldLease(s, e, s.workers[t].row.caseId);
    } else if e.worker in s.workers {
      ClaimsAreKept(s, e.worker, e.action);
      WorkerWrites(s, e.worker, e.action);
    }
  }

  lemma {:induction false} LostLeaseForever(s: State, es: seq<Event>, t: Token)
    requires Inv(s) && LostLease(s, t)
    ensures Inv(Run(s, es)) && LostLease(Run(s, es), t) && Run(s, es).workers[t].row == s.workers[t].row
  {
    if |es| > 0 {
      hide Apply;
      var m := Run(s, es[..|es| - 1]);
      LostLeaseForever(s, es[..|es| - 1], t);
      StepKeeps(m, es[|es| - 1]);
      assert forall u | u in m.workers :: WorkerRowOk(m, u);
      LostLeaseStaysLost(m, es[|es| - 1], t);
    }
  }

  /** Once a worker's token has been replaced or cleared, none of its later steps changes any case row. */
  lemma LostLeaseWritesNothing(es: seq<Event>, later: seq<Event>, t: Token, action: Action)
    requires LostLease(Run(Init(), es), t)
    ensures var s := Run(Init(), es + later);
            t in s.workers && ApplyWorker(s, t, action).db.cases == s.db.cases
  {
    RunKeepsInvariant(es);
    RunConcat(Init(), es, later);
    LostLeaseForever(Run(Init(), es), later, t);
    var s := Run(Init(), es + later);
    assert WorkerRowOk(s, t);
    WorkerWrites(s, t, action);
  }

  // ---------- the gate chain ----------

  /** In every reachable state an advice row implies completed safe and ALLOW-ed safety rows, a safe
      row implies the ALLOW-ed safety row, and a stored result implies a completed safe row. */
  lemma GateChain(es: seq<Event>, c: CaseId)
    ensures var db := Run(Init(), es).db;
            && (HasRow(db.steps, c, AdviceStep) ==> SafePassed(db, c) && SafetyPassed(db, c))
            && (HasRow(db.steps, c, SafeStep) ==> SafetyPassed(db, c))
            && (c in db.cases && db.cases[c].result.Some? ==> SafePassed(db, c) && SafetyPassed(db, c))
  {
    RunKeepsInvariant(es);
    var db := Run(Init(), es).db;
    if HasRow(db.steps, c, AdviceStep) { var i: nat :| RowFor(db.steps, i, c, AdviceStep); assert GateOk(db, i); }
    if SafePassed(db, c) { var i: nat :| SafeRowOk(db, i, c); assert GateOk(db, i); }
    if HasRow(db.steps, c, SafeStep) { var i: nat :| RowFor(db.steps, i, c, SafeStep); assert GateOk(db, i); }
  }

  // ---------- mutual exclusion and bounded work ----------

  /** At most one lease is live anywhere, a queued case holds none, no claim overwrites a live lease,
      and a case is claimed at most three times in its life. */
  lemma RuntimeIsExclusive(es: seq<Event>, c: CaseId, d: CaseId)
    requires c in Run(Init(), es).db.cases && d in Run(Init(), es).db.cases
    ensures var s := Run(Init(), es);
            && (Live(s.db.cases[c], s.db.now) && Live(s.db.cases[d], s.db.now) ==> c == d)
            && (s.db.cases[c].state == Queued ==> s.db.cases[c].leaseToken.None? && s.db.cases[c].leaseUntil.None?)
            && s.claims[c] == s.db.cases[c].attempts <= MAX_ATTEMPTS
            && (Live(s.db.cases[c], s.db.now) ==>
                  forall x, r, t, op :: Apply(s, Claim(x, r, t, op)) == s)
  {
    RunKeepsInvariant(es);
  }

  /** A case costs at most three provider calls, however often it is retried. */
  lemma BoundedSpend(es: seq<Event>, c: CaseId)
    ensures var k := Run(Init(), es).calls; k[(c, SafetyStep)] + k[(c, SafeStep)] + k[(c, AdviceStep)] <= 3
  {
    RunKeepsInvariant(es);
  }
}
