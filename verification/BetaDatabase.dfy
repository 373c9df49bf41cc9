/** The beta's tables as the mutable store the Workers share. Each method is one database
    transaction of the jobs Worker or of the admin API; its contract equates the new tables with
    the transaction function that the protocol's invariants and theorems are stated about. */
module BetaDatabase {
  import opened Options
  import opened BetaTables

  class Database {
    var now: int
    var cases: map<CaseId, CaseRow>
    var steps: seq<StepRow>

    ghost function View(): Db
      reads this
    {
      Db(now, cases, steps)
    }

    constructor ()
      ensures View() == Db(0, map[], [])
    {
      now, cases, steps := 0, map[], [];
    }

    predicate HoldsLease(w: Claimed)
      reads this
      ensures HoldsLease(w) == Fence(View(), w)
    {
      w.caseId in cases &&
      var row := cases[w.caseId];
      && row.state == Analyzing && !row.deleted
      && row.revision == w.revision && row.leaseToken == Some(w.token)
      && row.leaseUntil.Some? && now < row.leaseUntil.value && now < row.expiresAt
    }

    /** The claiming transaction of `processBetaEvent`. */
    method ClaimCase(c: CaseId, revision: nat, token: Token) returns (busy: bool, claimed: Option<Claimed>)
      modifies this
      ensures View() == ClaimTx(old(View()), c, revision, token).0
      ensures claimed == ClaimTx(old(View()), c, revision, token).1
      ensures busy == Busy(old(View()))
    {
      claimed := None;
      busy := exists d <- cases.Keys :: Live(cases[d], now);
      if busy || c !in cases { return; }
      var row := cases[c];
      if row.revision != revision || row.deleted || row.expiresAt <= now { return; }
      if row.state !in {Queued, Analyzing} || row.attempts >= MAX_ATTEMPTS { return; }
      var until := now + LEASE_SECONDS;
      row := row.(state := Analyzing, leaseToken := Some(token), leaseUntil := Some(until), attempts := row.attempts + 1);
      cases := cases[c := row];
      claimed := Some(Claimed(c, revision, token, until, row.result));
    }

    /** The opening transaction of `step`: look the journal up from its newest row backwards. */
    method BeginStep(w: Claimed, name: StepName, key: nat) returns (begun: Begun)
      modifies this
      ensures View() == BeginTx(old(View()), w, name, key).0
      ensures begun == BeginTx(old(View()), w, name, key).1
    {
      if !HoldsLease(w) { return StaleLease; }
      var i := |steps|;
      assert steps[..i] == steps;
      while i > 0 && !(steps[i - 1].caseId == w.caseId && steps[i - 1].name == name)
        invariant 0 <= i <= |steps|
        invariant LastStep(steps, w.caseId, name) == LastStep(steps[..i], w.caseId, name)
      {
        i := i - 1;
        assert steps[..i + 1][..i] == steps[..i];
      }
      assert i > 0 ==> LastStep(steps[..i], w.caseId, name) == Some(i - 1);
      if i > 0 {
        var prior := steps[i - 1];
        if prior.state == Completed && prior.output.Some? && prior.reuseKey == key { return Reused(prior.output.value); }
        return Consumed;
      }
      begun := Inserted(|steps|);
      steps := steps + [StepRow(w.caseId, w.revision, name, Started, key, None)];
    }

    /** The closing transaction of `step`. */
    method CompleteStep(w: Claimed, id: nat, output: Output) returns (ok: bool)
      modifies this
      ensures View() == CompleteTx(old(View()), w, id, output).0
      ensures ok == CompleteTx(old(View()), w, id, output).1
    {
      ok := HoldsLease(w);
      if ok && id < |steps| && steps[id].state == Started {
        steps := steps[id := steps[id].(state := Completed, output := Some(output))];
      }
    }

    method AbandonStep(id: nat)
      modifies this
      ensures View() == AbandonTx(old(View()), id)
    {
      if id < |steps| && steps[id].state == Started {
        steps := steps[id := steps[id].(state := Ambiguous)];
      }
    }

    method SaveResult(w: Claimed, result: Result, terminal: bool) returns (saved: bool)
      modifies this
      ensures View() == SaveResultTx(old(View()), w, result, terminal).0
      ensures saved == SaveResultTx(old(View()), w, result, terminal).1
    {
      saved := HoldsLease(w);
      if saved {
        var row := cases[w.caseId].(result := Some(result));
        if terminal {
          row := row.(state := ResultState(result), leaseToken := None, leaseUntil := None);
        }
        cases := cases[w.caseId := row];
      }
    }

    /** The three fenced updates whose row count nobody reads. */
    method SaveSafety(w: Claimed, verdict: Verdict)
      modifies this
      ensures View() == SaveSafetyTx(old(View()), w, verdict).0
    {
      if HoldsLease(w) { cases := cases[w.caseId := cases[w.caseId].(safety := Some(verdict))]; }
    }

    method SettleSafety(w: Claimed, verdict: Verdict)
      modifies this
      ensures View() == SettleSafetyTx(old(View()), w, verdict).0
    {
      if HoldsLease(w) {
        var state := if verdict == Block then SafetyBlocked else SafetyReview;
        cases := cases[w.caseId := cases[w.caseId].(state := state, leaseToken := None, leaseUntil := None)];
      }
    }

    method SettleDisabled(w: Claimed, code: FailureCode)
      modifies this
      ensures View() == SettleDisabledTx(old(View()), w, code).0
    {
      if HoldsLease(w) {
        cases := cases[w.caseId := cases[w.caseId].(state := Paused, failure := Some(code), leaseToken := None, leaseUntil := None)];
      }
    }

    /** How many of a case's rows the advice path accepts as its gates. */
    method CountRecorded(c: CaseId) returns (n: nat)
      ensures n == RecordedCount(steps, c)
    {
      n := 0;
      var i := 0;
      while i < |steps|
        invariant 0 <= i <= |steps| && n == RecordedCount(steps[..i], c)
      {
        assert steps[..i + 1][..i] == steps[..i];
        if RecordedRow(steps[i], c) { n := n + 1; }
        i := i + 1;
      }
      assert steps[..i] == steps;
    }

    /** What others committed. */
    method Commit(db: Db)
      modifies this
      ensures View() == db
    {
      now, cases, steps := db.now, db.cases, db.steps;
    }

    /** The catch handler of `processBetaEvent`. */
    method SettleFailure(w: Claimed, code: FailureCode, result: Option<Result>)
      modifies this
      ensures View() == SettleFailureTx(old(View()), w, code, result)
    {
      if w.caseId !in cases { return; }
      var row := cases[w.caseId];
      if row.revision == w.revision && row.leaseToken == Some(w.token) && !row.deleted {
        var state := Failed;
        if code == PausedCode || code == EvidenceStale { state := Paused; }
        else if result.Some? { state := ResultState(result.value); }
        cases := cases[w.caseId := row.(state := state, failure := Some(code), leaseToken := None, leaseUntil := None)];
      }
    }

    /** `expireBetaWork`: its first statement walks the journal, the other two walk the cases. */
    method ExpireBetaWork()
      modifies this
      ensures View() == SweepExhaustedTx(SweepExpiredTx(SweepStepsTx(old(View()))))
    {
      ghost var start := View();
      var i := 0;
      while i < |steps|
        invariant 0 <= i <= |steps| == |start.steps|
        invariant now == start.now && cases == start.cases
        invariant forall j | 0 <= j < i :: steps[j] == SweepStepsTx(start).steps[j]
        invariant forall j | i <= j < |steps| :: steps[j] == start.steps[j]
      {
        if SweptStep(Db(now, cases, steps), steps[i]) {
          steps := steps[i := steps[i].(state := Ambiguous)];
        }
        i := i + 1;
      }
      assert steps == SweepStepsTx(start).steps;
      cases := map c | c in cases :: if Overdue(cases[c], now)
        then Released(cases[c], Expired).(revision := cases[c].revision + 1, failure := Some(CaseDeadline)) else cases[c];
      cases := map c | c in cases :: if Exhausted(cases[c], now)
        then Released(cases[c], Failed).(failure := Some(RetryExhausted)) else cases[c];
    }

    /** The administrator's retry transaction. */
    method AdminRetry(c: CaseId, current: bool) returns (outcome: AdminOutcome)
      modifies this
      ensures View() == AdminRetryTx(old(View()), c, current).0
      ensures outcome == AdminRetryTx(old(View()), c, current).1
    {
      if c !in cases || cases[c].deleted { return NotFound; }
      if !current { return AdviceIneligible; }
      var i := 0;
      while i < |steps|
        invariant 0 <= i <= |steps|
        invariant forall j | 0 <= j < i :: !(steps[j].caseId == c && steps[j].state != Completed)
      {
        if steps[i].caseId == c && steps[i].state != Completed { return AttemptSpent; }
        i := i + 1;
      }
      var row := cases[c];
      if !(row.state == Paused || row.state == Failed) || row.attempts >= MAX_ATTEMPTS || row.expiresAt <= now || row.leaseToken.Some? {
        return RetryUnavailable;
      }
      cases := cases[c := row.(state := Queued, failure := None)];
      outcome := Requeued;
    }

    /** The administrator's advice transaction. */
    method AdminAdvice(c: CaseId, current: bool) returns (outcome: AdminOutcome)
      modifies this
      ensures View() == AdminAdviceTx(old(View()), c, current).0
      ensures outcome == AdminAdviceTx(old(View()), c, current).1
    {
      if c !in cases || cases[c].deleted { return NotFound; }
      if !current { return AdviceIneligible; }
      var row := cases[c];
      if row.result.None? || !row.result.value.eligible { return AdviceIneligible; }
      var consumed := LastStep(steps, c, AdviceStep);
      if consumed.Some? { return AttemptSpent; }
      if row.state != Complete || row.attempts >= MAX_ATTEMPTS || row.expiresAt <= now || row.leaseToken.Some? {
        return RetryUnavailable;
      }
      cases := cases[c := row.(state := Queued, failure := None)];
      outcome := Requeued;
    }
  }
}
