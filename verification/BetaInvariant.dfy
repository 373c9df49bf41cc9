/** What every step of the authenticity beta keeps. */
module BetaInvariant {
  import opened Options
  import opened BetaTables
  import opened BetaProtocol

  // ---------- the journal only grows, and finished rows are frozen ----------

  ghost predicate StepEvolves(a: Db, b: Db, i: nat)
    requires i < |a.steps| && i < |b.steps|
  {
    var x, y := a.steps[i], b.steps[i];
    && y.caseId == x.caseId && y.name == x.name && y.revision == x.revision && y.reuseKey == x.reuseKey
    && (x.state != Started ==> y.state == x.state)
    && (x.state == Completed ==>
          y.output == x.output || (x.caseId in b.cases && b.cases[x.caseId].deleted && y.output == None))
  }

  ghost predicate CaseEvolves(x: CaseRow, y: CaseRow) {
    && y.expiresAt == x.expiresAt
    && (x.deleted ==> y.deleted)
    && x.attempts <= y.attempts
    && x.revision <= y.revision
  }

  /** Two-state invariant of the tables, kept by every transaction and closed under composition. */
  ghost predicate Evolves(a: Db, b: Db) {
    && a.now <= b.now
    && |a.steps| <= |b.steps|
    && (forall i: nat | i < |a.steps| :: StepEvolves(a, b, i))
    && (forall c | c in a.cases :: c in b.cases && CaseEvolves(a.cases[c], b.cases[c]))
  }

  // ---------- the one-state invariant ----------

  /** A lease exists exactly while a case is analyzing, and deletion is visible in the state. */
  ghost predicate LeaseShape(r: CaseRow) {
    && (r.state == Analyzing <==> r.leaseToken.Some?)
    && (r.leaseToken.Some? <==> r.leaseUntil.Some?)
    && (r.deleted <==> r.state == Deleted)
    && (r.deleted ==> r.result.None?)
    && r.attempts <= MAX_ATTEMPTS
  }

  /** A lease token on a row belongs to the worker that claimed that row. */
  ghost predicate TokenOwned(s: State, c: CaseId)
    requires c in s.db.cases
  {
    var r := s.db.cases[c];
    r.leaseToken.Some? ==>
      && r.leaseToken.value in s.workers
      && var w := s.workers[r.leaseToken.value].row;
         && w.caseId == c && w.revision == r.revision && r.leaseUntil == Some(w.leaseUntil)
  }

  ghost predicate CasesOk(s: State) {
    && (forall c | c in s.db.cases ::
          && LeaseShape(s.db.cases[c])
          && TokenOwned(s, c)
          && s.db.cases[c].attempts == s.claims[c])
    && (forall c | c in s.claims :: c in s.db.cases)
  }

  ghost predicate OneLive(db: Db) {
    forall c, d | c in db.cases && d in db.cases && c != d :: !(Live(db.cases[c], db.now) && Live(db.cases[d], db.now))
  }

  /** At most one journal row per case and step name. */
  ghost predicate Unique(steps: seq<StepRow>) {
    forall i, j | 0 <= i < j < |steps| :: !(steps[i].caseId == steps[j].caseId && steps[i].name == steps[j].name)
  }

  ghost predicate RowFor(steps: seq<StepRow>, i: nat, c: CaseId, name: StepName) {
    i < |steps| && steps[i].caseId == c && steps[i].name == name
  }

  ghost predicate HasRow(steps: seq<StepRow>, c: CaseId, name: StepName) {
    exists i: nat :: RowFor(steps, i, c, name)
  }

  ghost predicate SafetyRowOk(db: Db, i: nat, c: CaseId) {
    && RowFor(db.steps, i, c, SafetyStep) && db.steps[i].state == Completed
    && c in db.cases
    && (!db.cases[c].deleted ==> db.steps[i].output.Some? && db.steps[i].output.value.verdict == Allow)
  }

  /** The safety step completed with ALLOW (after deletion only its completion is still visible). */
  ghost predicate SafetyPassed(db: Db, c: CaseId) { exists i: nat :: SafetyRowOk(db, i, c) }

  ghost predicate SafeRowOk(db: Db, i: nat, c: CaseId) {
    RowFor(db.steps, i, c, SafeStep) && db.steps[i].state == Completed
  }

  ghost predicate SafePassed(db: Db, c: CaseId) { exists i: nat :: SafeRowOk(db, i, c) }

  /** The gate chain: no row and no stored result exists without its predecessors. */
  ghost predicate GateOk(db: Db, i: nat)
    requires i < |db.steps|
  {
    && db.steps[i].caseId in db.cases
    && (db.steps[i].name == SafeStep ==> SafetyPassed(db, db.steps[i].caseId))
    && (db.steps[i].name == AdviceStep ==> SafetyPassed(db, db.steps[i].caseId) && SafePassed(db, db.steps[i].caseId))
  }

  ghost predicate Gates(db: Db) {
    && (forall i: nat | i < |db.steps| :: GateOk(db, i))
    && (forall c | c in db.cases && db.cases[c].result.Some? :: SafePassed(db, c))
  }

  /** The journal row a worker is responsible for. */
  ghost predicate HoldsRow(w: Worker, id: nat) {
    (w.phase.InStep? || w.phase.Abandoning?) && w.phase.id == id
  }

  ghost predicate WorkerRowOk(s: State, t: Token)
    requires t in s.workers
  {
    var w := s.workers[t];
    && w.row.token == t && w.row.caseId in s.db.cases
    && (w.phase.InStep? || w.phase.Abandoning? ==>
          RowFor(s.db.steps, w.phase.id, w.row.caseId, w.phase.name))
    && (w.phase.InStep? ==>
          // while the lease is still this worker's and alive, its row is still started
          && (s.db.cases[w.row.caseId].leaseToken == Some(t) ==>
                || s.db.steps[w.phase.id].state == Started
                || w.row.leaseUntil < s.db.now
                || s.db.cases[w.row.caseId].expiresAt <= s.db.now)
          && (!w.phase.called ==> s.calls[(w.row.caseId, w.phase.name)] == 0))
  }

  /** What a worker's phase says about the journal. */
  ghost predicate PhaseOk(s: State, t: Token)
    requires t in s.workers
  {
    var w := s.workers[t];
    var c := w.row.caseId;
    var safetyPhase := w.phase == HasSafety(Allow) || w.phase == SafetySaved(Allow);
    var name := if w.phase.InStep? || w.phase.Abandoning? then Some(w.phase.name) else None;
    && (safetyPhase || name == Some(SafeStep) ==> SafetyPassed(s.db, c))
    && (w.phase == HasSafe || w.phase == Compiled || w.phase == Scored || w.phase == Final || name == Some(AdviceStep) ==>
          SafetyPassed(s.db, c) && SafePassed(s.db, c))
    && (w.result.Some? ==> SafePassed(s.db, c))
  }

  ghost predicate WorkersOk(s: State) {
    && (forall t | t in s.workers :: WorkerRowOk(s, t) && PhaseOk(s, t))
    && (forall t, u, id: nat | t in s.workers && u in s.workers && HoldsRow(s.workers[t], id) && HoldsRow(s.workers[u], id) :: t == u)
  }

  ghost predicate CallsOk(s: State) {
    forall c, n ::
      && s.calls[(c, n)] <= 1
      && (s.calls[(c, n)] > 0 ==> HasRow(s.db.steps, c, n))
  }

  ghost predicate Inv(s: State) {
    CasesOk(s) && OneLive(s.db) && Unique(s.db.steps) && Gates(s.db) && WorkersOk(s) && CallsOk(s)
  }

  // ---------- frame lemmas ----------

  lemma EvolvesTransitive(a: Db, b: Db, c: Db)
    requires Evolves(a, b) && Evolves(b, c)
    ensures Evolves(a, c)
  {
    forall i: nat | i < |a.steps| ensures StepEvolves(a, c, i) {
      assert StepEvolves(a, b, i) && StepEvolves(b, c, i);
    }
  }

  /** Passed gates stay passed. */
  lemma PassedStable(a: Db, b: Db, c: CaseId)
    requires Evolves(a, b)
    ensures SafetyPassed(a, c) ==> SafetyPassed(b, c)
    ensures SafePassed(a, c) ==> SafePassed(b, c)
  {
    if SafetyPassed(a, c) {
      var i: nat :| SafetyRowOk(a, i, c);
      assert StepEvolves(a, b, i);
      assert SafetyRowOk(b, i, c);
    }
    if SafePassed(a, c) {
      var i: nat :| SafeRowOk(a, i, c);
      assert StepEvolves(a, b, i);
      assert SafeRowOk(b, i, c);
    }
  }

  /** The gate chain survives any evolution that adds no row and stores no new result. */
  lemma GatesStable(a: Db, b: Db)
    requires Evolves(a, b) && Gates(a) && |a.steps| == |b.steps|
    requires forall c | c in b.cases && b.cases[c].result.Some? :: SafePassed(a, c)
    ensures Gates(b)
  {
    forall i: nat | i < |b.steps| ensures GateOk(b, i) {
      assert StepEvolves(a, b, i) && GateOk(a, i);
      PassedStable(a, b, a.steps[i].caseId);
    }
    forall c | c in b.cases && b.cases[c].result.Some? ensures SafePassed(b, c) { PassedStable(a, b, c); }
  }

  lemma RowsStable(a: Db, b: Db, c: CaseId, n: StepName)
    requires Evolves(a, b)
    ensures HasRow(a.steps, c, n) ==> HasRow(b.steps, c, n)
  {
    if HasRow(a.steps, c, n) {
      var i: nat :| RowFor(a.steps, i, c, n);
      assert StepEvolves(a, b, i);
      assert RowFor(b.steps, i, c, n);
    }
  }
}
