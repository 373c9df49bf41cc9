/** Every event of the authenticity beta keeps the invariant. */
module BetaPreservation {
  import opened Options
  import opened BetaTables
  import opened BetaProtocol
  import opened BetaInvariant

  // ---------- two general steps: tables change, or one worker's phase changes ----------

  /** A row keeps its lease exactly or loses it; nobody gains one here. */
  ghost predicate LeaseKeptOrLost(x: CaseRow, y: CaseRow) {
    && LeaseShape(y)
    && y.attempts == x.attempts
    && (y.leaseToken.Some? ==> y.leaseToken == x.leaseToken && y.leaseUntil == x.leaseUntil && y.revision == x.revision)
  }

  ghost predicate InStepAt(s: State, t: Token, id: nat) {
    t in s.workers && s.workers[t].phase.InStep? && s.workers[t].phase.id == id
  }

  ghost predicate SafeTableChange(s: State, db: Db) {
    && Evolves(s.db, db) && |db.steps| == |s.db.steps|
    && (forall c | c in db.cases ::
          if c in s.db.cases then LeaseKeptOrLost(s.db.cases[c], db.cases[c])
          else LeaseShape(db.cases[c]) && db.cases[c].leaseToken.None? && db.cases[c].attempts == 0)
    && (forall c | c in db.cases && db.cases[c].result.Some? :: SafePassed(s.db, c))
    && (forall i: nat | i < |s.db.steps| && db.steps[i].state != s.db.steps[i].state ::
          SweptStep(s.db, s.db.steps[i]) || forall t :: !InStepAt(s, t, i))
  }

  lemma TableChangeCases(s: State, db: Db)
    requires Inv(s) && SafeTableChange(s, db)
    ensures CasesOk(s.(db := db)) && OneLive(db)
  {
    var s' := s.(db := db);
    forall c | c in db.cases ensures TokenOwned(s', c) && db.cases[c].attempts == s.claims[c] {
      if c in s.db.cases { assert TokenOwned(s, c); }
    }
    forall c | c in db.cases && Live(db.cases[c], db.now) ensures c in s.db.cases && Live(s.db.cases[c], s.db.now) {
      assert LeaseShape(db.cases[c]);
    }
  }

  lemma TableChangeJournal(s: State, db: Db)
    requires Inv(s) && SafeTableChange(s, db)
    ensures Unique(db.steps) && Gates(db) && CallsOk(s.(db := db))
  {
    GatesStable(s.db, db);
    forall i, j | 0 <= i < j < |db.steps|
      ensures !(db.steps[i].caseId == db.steps[j].caseId && db.steps[i].name == db.steps[j].name)
    {
      assert StepEvolves(s.db, db, i) && StepEvolves(s.db, db, j);
    }
    forall c, n ensures s.calls[(c, n)] > 0 ==> HasRow(db.steps, c, n) { RowsStable(s.db, db, c, n); }
  }

  lemma TableChangeWorker(s: State, db: Db, t: Token)
    requires Inv(s) && SafeTableChange(s, db) && t in s.workers
    ensures WorkerRowOk(s.(db := db), t) && PhaseOk(s.(db := db), t)
  {
    var w := s.workers[t];
    assert WorkerRowOk(s, t) && PhaseOk(s, t);
    PassedStable(s.db, db, w.row.caseId);
    if w.phase.InStep? || w.phase.Abandoning? { assert StepEvolves(s.db, db, w.phase.id); }
    if w.phase.InStep? {
      assert InStepAt(s, t, w.phase.id);
      assert TokenOwned(s, w.row.caseId);
    }
  }

  lemma TableChange(s: State, db: Db)
    requires Inv(s) && SafeTableChange(s, db)
    ensures Inv(s.(db := db))
  {
    TableChangeCases(s, db);
    TableChangeJournal(s, db);
    forall t | t in s.workers ensures WorkerRowOk(s.(db := db), t) && PhaseOk(s.(db := db), t) {
      TableChangeWorker(s, db, t);
    }
  }

  lemma PhaseChangeRows(s: State, t: Token, w: Worker)
    requires WorkersOk(s) && t in s.workers && w.row == s.workers[t].row && !w.phase.InStep?
    requires w.phase.Abandoning? ==> HoldsRow(s.workers[t], w.phase.id) && w.phase.name == s.workers[t].phase.name
    requires PhaseOk(s.(workers := s.workers[t := w]), t)
    ensures var s' := s.(workers := s.workers[t := w]); forall u | u in s'.workers :: WorkerRowOk(s', u) && PhaseOk(s', u)
  {
    hide SafetyPassed, SafePassed;
    var s' := s.(workers := s.workers[t := w]);
    forall u | u in s'.workers ensures WorkerRowOk(s', u) && PhaseOk(s', u) {
      assert u in s.workers && WorkerRowOk(s, u) && PhaseOk(s, u);
    }
  }

  /** A worker leaves its phase for one that holds no running step. */
  lemma PhaseChange(s: State, t: Token, w: Worker)
    requires Inv(s) && t in s.workers && w.row == s.workers[t].row
    requires !w.phase.InStep?
    requires w.phase.Abandoning? ==> HoldsRow(s.workers[t], w.phase.id) && w.phase.name == s.workers[t].phase.name
    requires PhaseOk(s.(workers := s.workers[t := w]), t)
    ensures Inv(s.(workers := s.workers[t := w]))
  {
    PhaseChangeRows(s, t, w);
    hide SafetyPassed, SafePassed, WorkerRowOk, PhaseOk, Gates, OneLive, Unique;
    var s' := s.(workers := s.workers[t := w]);
    forall c | c in s.db.cases ensures TokenOwned(s', c) { assert TokenOwned(s, c); }
    forall u, v, id: nat | u in s'.workers && v in s'.workers && HoldsRow(s'.workers[u], id) && HoldsRow(s'.workers[v], id)
      ensures u == v
    {
      assert HoldsRow(s.workers[u], id) && HoldsRow(s.workers[v], id);
    }
  }

  // ---------- the journal's special steps ----------

  /** The state a successful claim leads to. */
  ghost predicate ClaimsTo(s: State, s': State, c: CaseId, revision: nat, token: Token, op: Operation) {
    && Inv(s) && s' == Apply(s, Claim(c, revision, token, op))
    && token !in s.workers && !Busy(s.db) && Claimable(s.db, c, revision)
  }

  lemma ClaimEvolves(db: Db, c: CaseId, revision: nat, token: Token)
    ensures Evolves(db, ClaimTx(db, c, revision, token).0)
  {
  }

  lemma ClaimKeepsCases(s: State, s': State, c: CaseId, revision: nat, token: Token, op: Operation)
    requires ClaimsTo(s, s', c, revision, token, op)
    ensures CasesOk(s') && OneLive(s'.db) && Evolves(s.db, s'.db)
  {
    ClaimEvolves(s.db, c, revision, token);
    hide Gates, WorkersOk, CallsOk, Unique, Evolves;
    forall d | d in s'.db.cases
      ensures LeaseShape(s'.db.cases[d]) && TokenOwned(s', d) && s'.db.cases[d].attempts == s'.claims[d]
    {
      assert TokenOwned(s, d);
    }
    assert forall d | d in s.db.cases :: !Live(s.db.cases[d], s.db.now);
  }

  lemma ClaimKeepsWorkers(s: State, s': State, c: CaseId, revision: nat, token: Token, op: Operation)
    requires ClaimsTo(s, s', c, revision, token, op) && Evolves(s.db, s'.db)
    ensures WorkersOk(s')
  {
    hide CasesOk, OneLive, Unique, CallsOk, SafetyPassed, SafePassed;
    assert Gates(s.db);
    hide Evolves, GateOk;
    forall t | t in s'.workers ensures WorkerRowOk(s', t) && PhaseOk(s', t) {
      PassedStable(s.db, s'.db, s'.workers[t].row.caseId);
      if t != token { assert WorkerRowOk(s, t) && PhaseOk(s, t); }
    }
    forall u, v, id: nat | u in s'.workers && v in s'.workers && HoldsRow(s'.workers[u], id) && HoldsRow(s'.workers[v], id)
      ensures u == v
    {
      assert HoldsRow(s.workers[u], id) && HoldsRow(s.workers[v], id);
    }
  }

  lemma ClaimKeeps(s: State, c: CaseId, revision: nat, token: Token, op: Operation)
    requires Inv(s)
    ensures Inv(Apply(s, Claim(c, revision, token, op)))
  {
    var s' := Apply(s, Claim(c, revision, token, op));
    if token !in s.workers && !Busy(s.db) && Claimable(s.db, c, revision) {
      ClaimKeepsCases(s, s', c, revision, token, op);
      ClaimKeepsWorkers(s, s', c, revision, token, op);
      GatesStable(s.db, s'.db);
    }
  }

  /** The state a fresh journal row leads to. */
  ghost predicate InsertsTo(s: State, s': State, t: Token, name: StepName, key: nat) {
    && Inv(s) && t in s.workers && MayBegin(s.workers[t], name)
    && Fence(s.db, s.workers[t].row) && !HasRow(s.db.steps, s.workers[t].row.caseId, name)
    && s'.db == s.db.(steps := s.db.steps + [StepRow(s.workers[t].row.caseId, s.workers[t].row.revision, name, Started, key, None)])
    && s' == s.(db := s'.db, workers := s.workers[t := s.workers[t].(phase := InStep(name, |s.db.steps|, false))])
  }

  lemma InsertKeepsJournal(s: State, s': State, t: Token, name: StepName, key: nat)
    requires InsertsTo(s, s', t, name, key)
    ensures Evolves(s.db, s'.db) && Unique(s'.db.steps) && Gates(s'.db) && CallsOk(s')
  {
    assert PhaseOk(s, t);
    assert forall i: nat | i < |s.db.steps| :: StepEvolves(s.db, s'.db, i);
    forall i: nat | i < |s.db.steps| ensures !(s.db.steps[i].caseId == s.workers[t].row.caseId && s.db.steps[i].name == name) {
      assert !RowFor(s.db.steps, i, s.workers[t].row.caseId, name);
    }
    PassedStable(s.db, s'.db, s.workers[t].row.caseId);
    forall i: nat | i < |s'.db.steps| ensures GateOk(s'.db, i) {
      if i < |s.db.steps| { assert GateOk(s.db, i); PassedStable(s.db, s'.db, s.db.steps[i].caseId); }
    }
    forall d | d in s'.db.cases && s'.db.cases[d].result.Some? ensures SafePassed(s'.db, d) { PassedStable(s.db, s'.db, d); }
    forall d, n ensures s'.calls[(d, n)] > 0 ==> HasRow(s'.db.steps, d, n) { RowsStable(s.db, s'.db, d, n); }
  }

  lemma InsertKeepsWorkers(s: State, s': State, t: Token, name: StepName, key: nat)
    requires InsertsTo(s, s', t, name, key) && Evolves(s.db, s'.db)
    ensures WorkersOk(s')
  {
    hide SafetyPassed, SafePassed, OneLive, CasesOk, Unique;
    assert WorkerRowOk(s, t) && PhaseOk(s, t);
    forall u | u in s'.workers ensures WorkerRowOk(s', u) && PhaseOk(s', u) {
      PassedStable(s.db, s'.db, s'.workers[u].row.caseId);
      if u != t { assert WorkerRowOk(s, u) && PhaseOk(s, u); }
    }
    forall u, v, id: nat | u in s'.workers && v in s'.workers && HoldsRow(s'.workers[u], id) && HoldsRow(s'.workers[v], id)
      ensures u == v
    {
      if u != t { assert WorkerRowOk(s, u); assert id < |s.db.steps|; }
      if v != t { assert WorkerRowOk(s, v); assert id < |s.db.steps|; }
      if u != t && v != t { assert HoldsRow(s.workers[u], id) && HoldsRow(s.workers[v], id); }
    }
  }

  lemma InsertKeepsCases(s: State, s': State, t: Token, name: StepName, key: nat)
    requires InsertsTo(s, s', t, name, key)
    ensures CasesOk(s') && OneLive(s'.db)
  {
    forall d | d in s'.db.cases ensures TokenOwned(s', d) { assert TokenOwned(s, d); }
  }

  lemma InsertKeeps(s: State, t: Token, name: StepName, key: nat)
    requires Inv(s) && t in s.workers && MayBegin(s.workers[t], name)
    requires BeginTx(s.db, s.workers[t].row, name, key).1.Inserted?
    ensures Inv(ApplyWorker(s, t, Begin(name, key)))
  {
    var s' := ApplyWorker(s, t, Begin(name, key));
    assert InsertsTo(s, s', t, name, key);
    InsertKeepsJournal(s, s', t, name, key);
    InsertKeepsWorkers(s, s', t, name, key);
    InsertKeepsCases(s, s', t, name, key);
  }

  /** Two workers never run the same case and step: their rows would coincide. */
  lemma RunnersDiffer(s: State, t: Token, u: Token)
    requires Inv(s) && t in s.workers && u in s.workers && s.workers[t].phase.InStep? && s.workers[u].phase.InStep?
    ensures s.workers[t].row.caseId == s.workers[u].row.caseId && s.workers[t].phase.name == s.workers[u].phase.name ==> t == u
  {
    hide CasesOk, OneLive, Gates, CallsOk, PhaseOk;
    assert WorkerRowOk(s, t) && WorkerRowOk(s, u);
    assert HoldsRow(s.workers[t], s.workers[t].phase.id) && HoldsRow(s.workers[u], s.workers[u].phase.id);
  }

  lemma ExecuteKeepsWorkers(s: State, s': State, t: Token)
    requires Inv(s) && t in s.workers && s.workers[t].phase.InStep? && !s.workers[t].phase.called
    requires s' == ApplyWorker(s, t, Execute)
    ensures WorkersOk(s')
  {
    hide SafetyPassed, SafePassed, OneLive, Gates, Unique, CasesOk, CallsOk;
    forall u | u in s'.workers ensures WorkerRowOk(s', u) && PhaseOk(s', u) {
      assert WorkerRowOk(s, u) && PhaseOk(s, u);
      if s.workers[u].phase.InStep? { RunnersDiffer(s, t, u); }
    }
    forall u, v, id: nat | u in s'.workers && v in s'.workers && HoldsRow(s'.workers[u], id) && HoldsRow(s'.workers[v], id)
      ensures u == v
    {
      assert HoldsRow(s.workers[u], id) && HoldsRow(s.workers[v], id);
    }
  }

  lemma ExecuteKeeps(s: State, t: Token)
    requires Inv(s) && t in s.workers
    ensures Inv(ApplyWorker(s, t, Execute))
  {
    var w := s.workers[t];
    if w.phase.InStep? && !w.phase.called {
      var s' := ApplyWorker(s, t, Execute);
      ExecuteKeepsWorkers(s, s', t);
      assert WorkerRowOk(s, t);
      assert RowFor(s.db.steps, w.phase.id, w.row.caseId, w.phase.name);
      hide OneLive, Gates, Unique, LeaseShape, WorkersOk, WorkerRowOk;
      forall d | d in s'.db.cases ensures TokenOwned(s', d) { assert TokenOwned(s, d); }
    }
  }

  // ---------- events that only change tables ----------

  /** Rewriting one case row is safe when the row evolves and gains neither lease nor unearned result. */
  lemma CaseWriteIsSafe(s: State, c: CaseId, row: CaseRow)
    requires Inv(s) && c in s.db.cases
    requires CaseEvolves(s.db.cases[c], row) && LeaseKeptOrLost(s.db.cases[c], row)
    requires row.result.Some? ==> SafePassed(s.db, c)
    ensures SafeTableChange(s, s.db.(cases := s.db.cases[c := row]))
  {
  }

  /** Some rows are released or edited in place; no row gains a lease or a result. */
  lemma CaseSweepKeeps(s: State, db: Db)
    requires Inv(s) && db.now == s.db.now && db.steps == s.db.steps && db.cases.Keys == s.db.cases.Keys
    requires forall c | c in db.cases :: db.cases[c] == s.db.cases[c] ||
               (CaseEvolves(s.db.cases[c], db.cases[c]) && LeaseKeptOrLost(s.db.cases[c], db.cases[c])
                && db.cases[c].result == s.db.cases[c].result)
    ensures Inv(s.(db := db))
  {
    assert SafeTableChange(s, db);
    TableChange(s, db);
  }

  lemma CaseWriteKeeps(s: State, c: CaseId, row: CaseRow)
    requires Inv(s) && c in s.db.cases
    requires CaseEvolves(s.db.cases[c], row) && LeaseKeptOrLost(s.db.cases[c], row)
    requires row.result.Some? ==> SafePassed(s.db, c)
    ensures Inv(s.(db := s.db.(cases := s.db.cases[c := row])))
    ensures Evolves(s.db, s.db.(cases := s.db.cases[c := row]))
  {
    CaseWriteIsSafe(s, c, row);
    TableChange(s, s.db.(cases := s.db.cases[c := row]));
  }

  lemma TickKeeps(s: State, seconds: nat)
    requires Inv(s)
    ensures Inv(s.(db := s.db.(now := s.db.now + seconds)))
  {
    TableChange(s, s.db.(now := s.db.now + seconds));
  }

  lemma SweepStepsKeeps(s: State)
    requires Inv(s)
    ensures Inv(s.(db := SweepStepsTx(s.db)))
  {
    var db := SweepStepsTx(s.db);
    assert forall i: nat | i < |s.db.steps| :: StepEvolves(s.db, db, i);
    TableChange(s, db);
  }

  /** The case sweeps release rows without granting anything. */
  lemma CasesReleased(a: Db, b: Db)
    requires b == SweepExpiredTx(a) || b == SweepExhaustedTx(a) || exists cs :: b == ExpireOwnTx(a, cs)
    requires forall c | c in a.cases :: LeaseShape(a.cases[c])
    ensures b.now == a.now && b.steps == a.steps && b.cases.Keys == a.cases.Keys
    ensures forall c | c in b.cases :: b.cases[c] == a.cases[c] ||
              (CaseEvolves(a.cases[c], b.cases[c]) && LeaseKeptOrLost(a.cases[c], b.cases[c]) && b.cases[c].result == a.cases[c].result)
  {
  }

  lemma SweepExpiredKeeps(s: State)
    requires Inv(s)
    ensures Inv(s.(db := SweepExpiredTx(s.db)))
  {
    var db := SweepExpiredTx(s.db);
    CasesReleased(s.db, db);
    CaseSweepKeeps(s, db);
  }

  lemma ExpireOwnKeeps(s: State, cs: set<CaseId>)
    requires Inv(s)
    ensures Inv(s.(db := ExpireOwnTx(s.db, cs)))
  {
    CasesReleased(s.db, ExpireOwnTx(s.db, cs));
    CaseSweepKeeps(s, ExpireOwnTx(s.db, cs));
  }

  lemma SweepExhaustedKeeps(s: State)
    requires Inv(s)
    ensures Inv(s.(db := SweepExhaustedTx(s.db)))
  {
    CasesReleased(s.db, SweepExhaustedTx(s.db));
    CaseSweepKeeps(s, SweepExhaustedTx(s.db));
  }

  lemma RequeueKeeps(s: State, c: CaseId)
    requires Inv(s) && c in s.db.cases && s.db.cases[c].leaseToken.None? && !s.db.cases[c].deleted
    ensures Inv(s.(db := Requeue(s.db, c)))
  {
    CaseWriteKeeps(s, c, s.db.cases[c].(state := Queued, failure := None));
  }

  lemma AdminKeeps(s: State, c: CaseId, db: Db, current: bool)
    requires Inv(s)
    requires db == AdminRetryTx(s.db, c, current).0 || db == AdminAdviceTx(s.db, c, current).0
    ensures Inv(s.(db := db))
  {
    assert db == s.db || (c in s.db.cases && s.db.cases[c].leaseToken.None? && !s.db.cases[c].deleted && db == Requeue(s.db, c));
    if db == s.db { assert s.(db := db) == s; } else { RequeueKeeps(s, c); }
  }

  /** Erasing the outputs of an already deleted case. */
  lemma EraseKeeps(s: State, c: CaseId, steps: seq<StepRow>)
    requires Inv(s) && c in s.db.cases && s.db.cases[c].deleted && |steps| == |s.db.steps|
    requires forall i | 0 <= i < |steps| ::
               steps[i] == if s.db.steps[i].caseId == c then s.db.steps[i].(output := None) else s.db.steps[i]
    ensures Inv(s.(db := s.db.(steps := steps)))
  {
    var db := s.db.(steps := steps);
    assert forall i: nat | i < |s.db.steps| :: StepEvolves(s.db, db, i);
    TableChange(s, db);
  }

  lemma CreateIsSafe(s: State, c: CaseId)
    requires Inv(s) && c !in s.db.cases
    ensures SafeTableChange(s, CreateTx(s.db, c))
  {
  }

  lemma CreateKeeps(s: State, c: CaseId)
    requires Inv(s)
    ensures Inv(s.(db := CreateTx(s.db, c)))
  {
    if c in s.db.cases {
      assert s.(db := s.db) == s;
    } else {
      CreateIsSafe(s, c);
      TableChange(s, CreateTx(s.db, c));
    }
  }

  lemma FinaliseKeeps(s: State, c: CaseId)
    requires Inv(s)
    ensures Inv(s.(db := FinaliseTx(s.db, c)))
  {
    if FinaliseTx(s.db, c) != s.db { CaseWriteKeeps(s, c, s.db.cases[c].(state := Queued)); }
  }

  lemma CancelKeeps(s: State, c: CaseId)
    requires Inv(s)
    ensures Inv(s.(db := CancelTx(s.db, c)))
  {
    var db := CancelTx(s.db, c);
    if db == s.db { assert s.(db := db) == s; } else {
      assert c in s.db.cases && db == s.db.(cases := s.db.cases[c := db.cases[c]]);
      CaseWriteKeeps(s, c, db.cases[c]);
    }
  }

  lemma TombstoneKeeps(s: State, c: CaseId)
    requires Inv(s)
    ensures Inv(s.(db := TombstoneTx(s.db, c)))
  {
    if c in s.db.cases && !s.db.cases[c].deleted {
      var db := TombstoneTx(s.db, c);
      var s1 := s.(db := s.db.(cases := s.db.cases[c := db.cases[c]]));
      CaseWriteKeeps(s, c, db.cases[c]);
      EraseKeeps(s1, c, db.steps);
      hide Inv;
      assert s.(db := db) == s1.(db := s1.db.(steps := db.steps));
    } else {
      assert s.(db := s.db) == s;
    }
  }

  // ---------- a worker's table writes ----------

  lemma SaveSafetyKeeps(s: State, t: Token, verdict: Verdict)
    requires Inv(s) && t in s.workers
    ensures Inv(s.(db := SaveSafetyTx(s.db, s.workers[t].row, verdict).0))
    ensures Evolves(s.db, SaveSafetyTx(s.db, s.workers[t].row, verdict).0)
  {
    var w := s.workers[t].row;
    if Fence(s.db, w) { CaseWriteKeeps(s, w.caseId, s.db.cases[w.caseId].(safety := Some(verdict))); }
  }

  lemma SettleSafetyKeeps(s: State, t: Token, verdict: Verdict)
    requires Inv(s) && t in s.workers
    ensures Inv(s.(db := SettleSafetyTx(s.db, s.workers[t].row, verdict).0))
    ensures Evolves(s.db, SettleSafetyTx(s.db, s.workers[t].row, verdict).0)
  {
    var w := s.workers[t].row;
    if Fence(s.db, w) { CaseWriteKeeps(s, w.caseId, SettleSafetyTx(s.db, w, verdict).0.cases[w.caseId]); }
  }

  lemma SettleDisabledKeeps(s: State, t: Token, code: FailureCode)
    requires Inv(s) && t in s.workers
    ensures Inv(s.(db := SettleDisabledTx(s.db, s.workers[t].row, code).0))
    ensures Evolves(s.db, SettleDisabledTx(s.db, s.workers[t].row, code).0)
  {
    var w := s.workers[t].row;
    if Fence(s.db, w) { CaseWriteKeeps(s, w.caseId, SettleDisabledTx(s.db, w, code).0.cases[w.caseId]); }
  }

  lemma SettleFailureKeeps(s: State, t: Token, code: FailureCode)
    requires Inv(s) && t in s.workers
    ensures Inv(s.(db := SettleFailureTx(s.db, s.workers[t].row, code, s.workers[t].result)))
    ensures Evolves(s.db, SettleFailureTx(s.db, s.workers[t].row, code, s.workers[t].result))
  {
    var w := s.workers[t].row;
    var db := SettleFailureTx(s.db, w, code, s.workers[t].result);
    if db != s.db { CaseWriteKeeps(s, w.caseId, db.cases[w.caseId]); }
  }

  lemma SaveResultKeeps(s: State, t: Token, result: Result, terminal: bool)
    requires Inv(s) && t in s.workers && SafePassed(s.db, s.workers[t].row.caseId)
    ensures Inv(s.(db := SaveResultTx(s.db, s.workers[t].row, result, terminal).0))
    ensures Evolves(s.db, SaveResultTx(s.db, s.workers[t].row, result, terminal).0)
  {
    var w := s.workers[t].row;
    if Fence(s.db, w) { CaseWriteKeeps(s, w.caseId, SaveResultTx(s.db, w, result, terminal).0.cases[w.caseId]); }
  }

  /** Settling an own row that no running step still claims. */
  lemma SettleRowKeeps(s: State, id: nat, row: StepRow)
    requires Inv(s) && id < |s.db.steps| && s.db.steps[id].state == Started
    requires row.caseId == s.db.steps[id].caseId && row.name == s.db.steps[id].name
    requires row.revision == s.db.steps[id].revision && row.reuseKey == s.db.steps[id].reuseKey
    requires forall t :: !InStepAt(s, t, id)
    ensures Inv(s.(db := s.db.(steps := s.db.steps[id := row])))
  {
    var db := s.db.(steps := s.db.steps[id := row]);
    assert forall i: nat | i < |s.db.steps| :: StepEvolves(s.db, db, i);
    TableChange(s, db);
  }

  // ---------- the worker's events ----------

  lemma PhaseStepKeeps(s: State, t: Token, w: Worker)
    requires Inv(s) && t in s.workers && w.row == s.workers[t].row
    requires !w.phase.InStep? && !w.phase.Abandoning?
    requires PhaseOk(s.(workers := s.workers[t := w]), t)
    ensures Inv(s.(workers := s.workers[t := w]))
  {
    PhaseChange(s, t, w);
  }

  /** A thrown or unacknowledged step: its worker turns to abandoning the row. */
  lemma ThrowInStepKeeps(s: State, t: Token)
    requires Inv(s) && t in s.workers && s.workers[t].phase.InStep?
    ensures Inv(Move(s, t, Abandoning(s.workers[t].phase.name, s.workers[t].phase.id)))
  {
    var p := s.workers[t].phase;
    assert PhaseOk(s, t);
    PhaseChange(s, t, s.workers[t].(phase := Abandoning(p.name, p.id)));
  }

  /** While a worker is abandoning a row, nobody runs that row. */
  lemma NobodyRuns(s: State, t: Token)
    requires Inv(s) && t in s.workers && s.workers[t].phase.Abandoning?
    ensures forall u :: !InStepAt(s, u, s.workers[t].phase.id)
  {
    forall u ensures !InStepAt(s, u, s.workers[t].phase.id) {
      if InStepAt(s, u, s.workers[t].phase.id) {
        assert HoldsRow(s.workers[u], s.workers[t].phase.id) && HoldsRow(s.workers[t], s.workers[t].phase.id);
      }
    }
  }

  lemma FailedStepKeeps(s: State, t: Token, code: FailureCode)
    requires Inv(s) && t in s.workers && s.workers[t].phase.Abandoning?
    ensures Inv(s.(workers := s.workers[t := AfterFailedStep(s.workers[t], s.workers[t].phase.name, code)]))
  {
    assert PhaseOk(s, t);
    hide CasesOk, OneLive, Unique, Gates, CallsOk, SafetyPassed, SafePassed, WorkerRowOk;
    PhaseStepKeeps(s, t, AfterFailedStep(s.workers[t], s.workers[t].phase.name, code));
  }

  lemma AbandonKeeps(s: State, t: Token)
    requires Inv(s) && t in s.workers && s.workers[t].phase.Abandoning?
    ensures Inv(ApplyWorker(s, t, Abandon))
  {
    var w := s.workers[t];
    assert WorkerRowOk(s, t) && PhaseOk(s, t);
    hide Inv, PhaseOk, AfterFailedStep;
    NobodyRuns(s, t);
    var s1 := s.(db := AbandonTx(s.db, w.phase.id));
    if s.db.steps[w.phase.id].state == Started {
      SettleRowKeeps(s, w.phase.id, s.db.steps[w.phase.id].(state := Ambiguous));
    } else {
      assert s1 == s;
    }
    FailedStepKeeps(s1, t, ConsumedCode);
    assert ApplyWorker(s, t, Abandon) == s1.(workers := s1.workers[t := AfterFailedStep(w, w.phase.name, ConsumedCode)]);
  }

  /** The fence guarantees that a completion finds its own row still started. */
  lemma FenceMeansStarted(s: State, t: Token)
    requires Inv(s) && t in s.workers && s.workers[t].phase.InStep? && Fence(s.db, s.workers[t].row)
    ensures s.workers[t].phase.id < |s.db.steps| && s.db.steps[s.workers[t].phase.id].state == Started
  {
    assert WorkerRowOk(s, t);
    assert TokenOwned(s, s.workers[t].row.caseId);
  }

  /** A completion that passed the fence, seen from the abandoning worker's point of view. */
  lemma CompletedRowKeeps(s: State, t: Token, output: Output)
    requires Inv(s) && t in s.workers && s.workers[t].phase.Abandoning?
    requires s.workers[t].phase.id < |s.db.steps| && s.db.steps[s.workers[t].phase.id].state == Started
    ensures var id := s.workers[t].phase.id;
            var s' := s.(db := s.db.(steps := s.db.steps[id := s.db.steps[id].(state := Completed, output := Some(output))]));
            && Inv(s')
            && (s.workers[t].phase.name == SafetyStep && output.verdict == Allow ==> SafetyPassed(s'.db, s.workers[t].row.caseId))
            && (s.workers[t].phase.name == SafeStep ==> SafePassed(s'.db, s.workers[t].row.caseId))
  {
    var id := s.workers[t].phase.id;
    var row := s.db.steps[id].(state := Completed, output := Some(output));
    var s' := s.(db := s.db.(steps := s.db.steps[id := row]));
    assert WorkerRowOk(s, t);
    NobodyRuns(s, t);
    SettleRowKeeps(s, id, row);
    if s.workers[t].phase.name == SafetyStep && output.verdict == Allow { assert SafetyRowOk(s'.db, id, s.workers[t].row.caseId); }
    if s.workers[t].phase.name == SafeStep { assert SafeRowOk(s'.db, id, s.workers[t].row.caseId); }
  }

  lemma AfterStepKeeps(s: State, t: Token, output: Output)
    requires Inv(s) && t in s.workers && s.workers[t].phase.Abandoning?
    requires s.workers[t].phase.name == SafetyStep && output.verdict == Allow ==> SafetyPassed(s.db, s.workers[t].row.caseId)
    requires s.workers[t].phase.name == SafeStep ==> SafePassed(s.db, s.workers[t].row.caseId)
    ensures Inv(s.(workers := s.workers[t := AfterStep(s.workers[t], s.workers[t].phase.name, output)]))
  {
    assert PhaseOk(s, t);
    PhaseStepKeeps(s, t, AfterStep(s.workers[t], s.workers[t].phase.name, output));
  }

  /** What a fenced completion does, as three smaller moves. */
  lemma FinishShape(s: State, t: Token, output: Output, acknowledged: bool)
    requires t in s.workers && s.workers[t].phase.InStep? && s.workers[t].phase.called && Fence(s.db, s.workers[t].row)
    requires s.workers[t].phase.id < |s.db.steps| && s.db.steps[s.workers[t].phase.id].state == Started
    ensures var p := s.workers[t].phase;
            var s1 := Move(s, t, Abandoning(p.name, p.id));
            var s2 := s1.(db := s1.db.(steps := s1.db.steps[p.id := s1.db.steps[p.id].(state := Completed, output := Some(output))]));
            ApplyWorker(s, t, Finish(output, acknowledged))
            == if acknowledged then s2.(workers := s2.workers[t := AfterStep(s2.workers[t], s2.workers[t].phase.name, output)]) else s2
  {
  }

  lemma FinishKeeps(s: State, t: Token, output: Output, acknowledged: bool)
    requires Inv(s) && t in s.workers && s.workers[t].phase.InStep? && s.workers[t].phase.called
    ensures Inv(ApplyWorker(s, t, Finish(output, acknowledged)))
  {
    var p := s.workers[t].phase;
    var s1 := Move(s, t, Abandoning(p.name, p.id));
    ThrowInStepKeeps(s, t);
    if Fence(s.db, s.workers[t].row) {
      FenceMeansStarted(s, t);
      FinishShape(s, t, output, acknowledged);
      CompletedRowKeeps(s1, t, output);
      var s2 := s1.(db := s1.db.(steps := s1.db.steps[p.id := s1.db.steps[p.id].(state := Completed, output := Some(output))]));
      if acknowledged { AfterStepKeeps(s2, t, output); }
    }
  }

  /** Beginning a step that is reused or refused changes only the worker. */
  lemma BeginKeeps(s: State, t: Token, name: StepName, key: nat)
    requires Inv(s) && t in s.workers
    ensures Inv(ApplyWorker(s, t, Begin(name, key)))
  {
    var w := s.workers[t];
    var s' := ApplyWorker(s, t, Begin(name, key));
    if MayBegin(w, name) {
      var (db, begun) := BeginTx(s.db, w.row, name, key);
      if begun.Inserted? {
        InsertKeeps(s, t, name, key);
      } else {
        assert db == s.db;
        assert PhaseOk(s, t) && WorkerRowOk(s, t);
        hide CasesOk, OneLive, Unique, Gates, CallsOk, WorkersOk;
        if begun.Reused? {
          var i := LastStep(s.db.steps, w.row.caseId, name).value;
          if name == SafetyStep && begun.output.verdict == Allow { assert SafetyRowOk(s.db, i, w.row.caseId); }
          if name == SafeStep { assert SafeRowOk(s.db, i, w.row.caseId); }
        }
        PhaseStepKeeps(s, t, s'.workers[t]);
        assert s' == s.(workers := s.workers[t := s'.workers[t]]);
      }
    }
  }

  lemma RecordedBound(steps: seq<StepRow>, c: CaseId)
    requires Unique(steps)
    ensures RecordedCount(steps, c) <= 2
    ensures (forall i | 0 <= i < |steps| :: !(RecordedRow(steps[i], c) && steps[i].name == SafeStep)) ==> RecordedCount(steps, c) <= 1
    ensures (forall i | 0 <= i < |steps| :: !(RecordedRow(steps[i], c) && steps[i].name == SafetyStep)) ==> RecordedCount(steps, c) <= 1
    ensures (forall i | 0 <= i < |steps| :: !RecordedRow(steps[i], c)) ==> RecordedCount(steps, c) == 0
  {
    if |steps| > 0 { RecordedBound(steps[..|steps| - 1], c); }
  }

  /** The advice path's row count of two is sound because rows are unique per step. */
  lemma CountOfTwoIsSound(s: State, c: CaseId)
    requires Inv(s) && RecordedCount(s.db.steps, c) == 2
    ensures SafetyPassed(s.db, c) && SafePassed(s.db, c)
  {
    RecordedBound(s.db.steps, c);
    var i :| 0 <= i < |s.db.steps| && RecordedRow(s.db.steps[i], c) && s.db.steps[i].name == SafeStep;
    assert SafeRowOk(s.db, i, c);
    var j :| 0 <= j < |s.db.steps| && RecordedRow(s.db.steps[j], c) && s.db.steps[j].name == SafetyStep;
    assert GateOk(s.db, j);
    assert SafetyRowOk(s.db, j, c);
  }

  /** A worker event that first writes the case row and then moves the worker on. */
  lemma WriteThenMoveKeeps(s: State, t: Token, db: Db, w: Worker)
    requires Inv(s) && t in s.workers && Inv(s.(db := db)) && Evolves(s.db, db)
    requires w.row == s.workers[t].row && !w.phase.InStep? && !w.phase.Abandoning?
    requires PhaseOk(s.(workers := s.workers[t := w]), t)
    ensures Inv(s.(db := db, workers := s.workers[t := w]))
  {
    PassedStable(s.db, db, w.row.caseId);
    PhaseStepKeeps(s.(db := db), t, w);
  }

  lemma SaveCompiledKeeps(s: State, t: Token)
    requires Inv(s) && t in s.workers && s.workers[t].phase == Compiled && s.workers[t].result.Some?
    ensures Inv(ApplyWorker(s, t, SaveCompiled))
  {
    hide CasesOk, OneLive, Unique, Gates, CallsOk, SafetyPassed, SafePassed, WorkerRowOk;
    var s' := ApplyWorker(s, t, SaveCompiled);
    assert PhaseOk(s, t);
    SaveResultKeeps(s, t, s.workers[t].result.value, false);
    WriteThenMoveKeeps(s, t, s'.db, s'.workers[t]);
  }

  lemma SaveFinalKeeps(s: State, t: Token)
    requires Inv(s) && t in s.workers && s.workers[t].phase == Final && s.workers[t].result.Some?
    ensures Inv(ApplyWorker(s, t, SaveFinal))
  {
    hide CasesOk, OneLive, Unique, Gates, CallsOk, SafetyPassed, SafePassed, WorkerRowOk;
    var s' := ApplyWorker(s, t, SaveFinal);
    assert PhaseOk(s, t);
    SaveResultKeeps(s, t, s.workers[t].result.value, true);
    WriteThenMoveKeeps(s, t, s'.db, s'.workers[t]);
  }

  /** The case row is written; the worker moves to a phase that asks nothing more of the journal. */
  lemma WrittenKeeps(s: State, t: Token, db: Db, phase: Phase)
    requires Inv(s) && t in s.workers && Inv(s.(db := db)) && Evolves(s.db, db)
    requires phase == Gone || (s.workers[t].phase.HasSafety? && phase == SafetySaved(s.workers[t].phase.verdict))
    ensures Inv(Move(s, t, phase).(db := db))
  {
    assert PhaseOk(s, t);
    hide CasesOk, OneLive, Unique, Gates, CallsOk, SafetyPassed, SafePassed, WorkerRowOk;
    WriteThenMoveKeeps(s, t, db, s.workers[t].(phase := phase));
  }

  lemma SettleKeeps(s: State, t: Token, action: Action)
    requires Inv(s) && t in s.workers && ApplyWorker(s, t, action) != s
    requires action.SaveSafety? || action.SettleSafety? || action.SettleDisabled? || action.SettleFailure?
    ensures Inv(ApplyWorker(s, t, action))
  {
    hide Inv, Evolves, SaveSafetyTx, SettleSafetyTx, SettleDisabledTx, SettleFailureTx;
    var w := s.workers[t];
    var s' := ApplyWorker(s, t, action);
    match action {
      case SaveSafety => SaveSafetyKeeps(s, t, w.phase.verdict);
      case SettleSafety => SettleSafetyKeeps(s, t, w.phase.verdict);
      case SettleDisabled(code) => SettleDisabledKeeps(s, t, code);
      case SettleFailure => SettleFailureKeeps(s, t, w.phase.code);
    }
    WrittenKeeps(s, t, s'.db, s'.workers[t].phase);
  }

  lemma LocalKeeps(s: State, t: Token, action: Action)
    requires Inv(s) && t in s.workers && ApplyWorker(s, t, action) != s && (action.Throw? ==> !s.workers[t].phase.InStep?)
    requires action.Throw? || action.LoseStep? || action.Compile? || action.ReuseResult? || action.CheckAdvice? || action.SkipAdvice?
    ensures Inv(ApplyWorker(s, t, action))
  {
    var w := s.workers[t];
    assert PhaseOk(s, t);
    hide Inv;
    var s' := ApplyWorker(s, t, action);
    if action.CheckAdvice? && s'.workers[t].phase == Scored { CountOfTwoIsSound(s, w.row.caseId); }
    LocalMove(s, t, action);
    PhaseStepKeeps(s, t, s'.workers[t]);
    hide ApplyWorker, PhaseOk;
    assert s' == s.(workers := s.workers[t := s'.workers[t]]);
  }

  /** A local action changes its own worker only, and the new phase asks for nothing the old did not. */
  lemma LocalMove(s: State, t: Token, action: Action)
    requires t in s.workers && ApplyWorker(s, t, action) != s && PhaseOk(s, t) && (action.Throw? ==> !s.workers[t].phase.InStep?)
    requires action.Throw? || action.LoseStep? || action.Compile? || action.ReuseResult? || action.CheckAdvice? || action.SkipAdvice?
    requires var s' := ApplyWorker(s, t, action);
             action.CheckAdvice? && t in s'.workers && s'.workers[t].phase == Scored ==>
               SafetyPassed(s.db, s.workers[t].row.caseId) && SafePassed(s.db, s.workers[t].row.caseId)
    ensures var s' := ApplyWorker(s, t, action);
            && t in s'.workers && s' == s.(workers := s.workers[t := s'.workers[t]]) && s'.workers[t].row == s.workers[t].row
            && !s'.workers[t].phase.InStep? && !s'.workers[t].phase.Abandoning? && PhaseOk(s', t)
  {
    hide SafetyPassed, SafePassed, RecordedCount, Fence;
  }

  lemma CrashKeeps(s: State, t: Token)
    requires Inv(s) && t in s.workers
    ensures Inv(ApplyWorker(s, t, Crash))
  {
    hide CasesOk, OneLive, Unique, Gates, CallsOk, SafetyPassed, SafePassed, WorkerRowOk;
    assert PhaseOk(s, t);
    PhaseStepKeeps(s, t, s.workers[t].(phase := Gone));
  }

  lemma WorkerKeeps(s: State, t: Token, action: Action)
    requires Inv(s) && t in s.workers
    ensures Inv(ApplyWorker(s, t, action))
  {
    hide Inv;
    if ApplyWorker(s, t, action) == s { return; }
    match action {
      case Begin(name, key) => BeginKeeps(s, t, name, key);
      case Execute => ExecuteKeeps(s, t);
      case Finish(output, acknowledged) => FinishKeeps(s, t, output, acknowledged);
      case Abandon => AbandonKeeps(s, t);
      case LoseStep => LocalKeeps(s, t, action);
      case Compile(_) => LocalKeeps(s, t, action);
      case SaveCompiled => SaveCompiledKeeps(s, t);
      case SaveFinal => SaveFinalKeeps(s, t);
      case Crash => CrashKeeps(s, t);
      case Throw(_) => if s.workers[t].phase.InStep? { ThrowInStepKeeps(s, t); } else { LocalKeeps(s, t, action); }
      case ReuseResult => LocalKeeps(s, t, action);
      case CheckAdvice => LocalKeeps(s, t, action);
      case SkipAdvice(_) => LocalKeeps(s, t, action);
      case _ => SettleKeeps(s, t, action);
    }
  }

  /** The invariant is inductive. */
  lemma StepKeeps(s: State, e: Event)
    requires Inv(s)
    ensures Inv(Apply(s, e))
  {
    hide Inv, ApplyWorker, ClaimTx, SweepStepsTx, SweepExpiredTx, SweepExhaustedTx, ExpireOwnTx, AdminRetryTx, AdminAdviceTx;
    hide CreateTx, FinaliseTx, CancelTx, TombstoneTx;
    match e {
      case Tick(seconds) => TickKeeps(s, seconds);
      case Claim(c, revision, token, op) => ClaimKeeps(s, c, revision, token, op);
      case Work(t, action) => if t in s.workers { WorkerKeeps(s, t, action); }
      case SweepSteps => SweepStepsKeeps(s);
      case SweepExpired => SweepExpiredKeeps(s);
      case SweepExhausted => SweepExhaustedKeeps(s);
      case ExpireOwn(cs) => ExpireOwnKeeps(s, cs);
      case AdminRetry(c, current) => AdminKeeps(s, c, AdminRetryTx(s.db, c, current).0, current);
      case AdminAdvice(c, current) => AdminKeeps(s, c, AdminAdviceTx(s.db, c, current).0, current);
      case Create(c) => CreateKeeps(s, c);
      case Finalise(c) => FinaliseKeeps(s, c);
      case Cancel(c) => CancelKeeps(s, c);
      case Tombstone(c) => TombstoneKeeps(s, c);
    }
  }
}
