/** The rows of the private authenticity beta and the transactions that change them.
    Every function below is one committed database transaction (or one autocommitted
    statement); `now` is the single database clock, in seconds. */
module BetaTables {
  import opened Options

  type CaseId = nat
  type Token = nat

  datatype CaseState =
    | Uploading | Queued | Analyzing | Complete | Inconclusive | Unsupported
    | Failed | Paused | SafetyReview | SafetyBlocked | Cancelled | Expired | Deleted

  datatype StepName = SafetyStep | SafeStep | AdviceStep
  datatype StepState = Started | Completed | Ambiguous
  datatype Verdict = Allow | Review | Block

  /** What a provider step journals. Only the safety step's verdict is ever inspected. */
  datatype Output = Output(verdict: Verdict, payload: nat)

  datatype Advisory = NotRun | Disabled | AttemptConsumed | AdviceComplete
  datatype ResultStatus = StatusComplete | StatusInconclusive | StatusUnsupported | StatusFailed
  datatype Result = Result(status: ResultStatus, eligible: bool, advisory: Advisory)

  datatype FailureCode =
    | PausedCode | EvidenceStale | Stale | OriginalChanged | OriginalUnavailable
    | ConsumedCode | ExecutionFailed | CaseDeadline | RetryExhausted | BlockedRights | BlockedRuntime

  datatype CaseRow = CaseRow(
    revision: nat,
    state: CaseState,
    leaseToken: Option<Token>,
    leaseUntil: Option<int>,
    attempts: nat,
    expiresAt: int,
    deleted: bool,
    safety: Option<Verdict>,
    result: Option<Result>,
    failure: Option<FailureCode>)

  datatype StepRow = StepRow(
    caseId: CaseId,
    revision: nat,
    name: StepName,
    state: StepState,
    reuseKey: nat,
    output: Option<Output>)

  /** `steps` is the journal in insertion order; a row's identity is its index. */
  datatype Db = Db(now: int, cases: map<CaseId, CaseRow>, steps: seq<StepRow>)

  /** What the claim returns: the columns the worker keeps for its whole run. */
  datatype Claimed = Claimed(caseId: CaseId, revision: nat, token: Token, leaseUntil: int, result: Option<Result>)

  const LEASE_SECONDS := 300
  const MAX_ATTEMPTS := 3

  predicate Live(row: CaseRow, now: int) {
    row.state == Analyzing && row.leaseUntil.Some? && row.leaseUntil.value > now
  }

  /** The guard that every write of a running worker carries. */
  predicate Fence(db: Db, w: Claimed) {
    w.caseId in db.cases &&
    var row := db.cases[w.caseId];
    && row.revision == w.revision
    && row.leaseToken == Some(w.token)
    && row.leaseUntil.Some? && row.leaseUntil.value > db.now
    && row.expiresAt > db.now
    && !row.deleted
    && row.state == Analyzing
  }

  function ResultState(r: Result): CaseState {
    match r.status
    case StatusComplete => Complete
    case StatusInconclusive => Inconclusive
    case StatusUnsupported => Unsupported
    case StatusFailed => Failed
  }

  // ---------- the worker's transactions ----------

  predicate Claimable(db: Db, c: CaseId, revision: nat) {
    && c in db.cases
    && db.cases[c].revision == revision
    && !db.cases[c].deleted
    && db.cases[c].expiresAt > db.now
    && db.cases[c].state in {Queued, Analyzing}
    && db.cases[c].attempts < MAX_ATTEMPTS
  }

  predicate Busy(db: Db) {
    exists c <- db.cases.Keys :: Live(db.cases[c], db.now)
  }

  /** Claim: refused while any lease is live, otherwise at most one row changes. */
  function ClaimTx(db: Db, c: CaseId, revision: nat, token: Token): (Db, Option<Claimed>) {
    if Busy(db) || !Claimable(db, c, revision) then (db, None)
    else
      var row := db.cases[c];
      var until := db.now + LEASE_SECONDS;
      (db.(cases := db.cases[c := row.(state := Analyzing, leaseToken := Some(token),
                                       leaseUntil := Some(until), attempts := row.attempts + 1)]),
       Some(Claimed(c, revision, token, until, row.result)))
  }

  /** The newest journal row of a case and step name. */
  function LastStep(steps: seq<StepRow>, c: CaseId, name: StepName): (r: Option<nat>)
    ensures r.Some? ==> r.value < |steps| && steps[r.value].caseId == c && steps[r.value].name == name
    ensures r.None? ==> forall i | 0 <= i < |steps| :: !(steps[i].caseId == c && steps[i].name == name)
  {
    if |steps| == 0 then None
    else if steps[|steps| - 1].caseId == c && steps[|steps| - 1].name == name then Some(|steps| - 1)
    else LastStep(steps[..|steps| - 1], c, name)
  }

  datatype Begun = Inserted(id: nat) | Reused(output: Output) | StaleLease | Consumed

  /** Begin a paid step: insert its one row, reuse its completed output, or refuse. */
  function BeginTx(db: Db, w: Claimed, name: StepName, key: nat): (Db, Begun) {
    if !Fence(db, w) then (db, StaleLease)
    else
      match LastStep(db.steps, w.caseId, name)
      case Some(i) =>
        var prior := db.steps[i];
        if prior.state == Completed && prior.output.Some? && prior.reuseKey == key then (db, Reused(prior.output.value))
        else (db, Consumed)
      case None =>
        (db.(steps := db.steps + [StepRow(w.caseId, w.revision, name, Started, key, None)]), Inserted(|db.steps|))
  }

  /** Complete a step under the fence. The inner update is not checked by its caller. */
  function CompleteTx(db: Db, w: Claimed, id: nat, output: Output): (Db, bool) {
    if !Fence(db, w) then (db, false)
    else if id < |db.steps| && db.steps[id].state == Started then
      (db.(steps := db.steps[id := db.steps[id].(state := Completed, output := Some(output))]), true)
    else (db, true)
  }

  function AbandonTx(db: Db, id: nat): Db {
    if id < |db.steps| && db.steps[id].state == Started then
      db.(steps := db.steps[id := db.steps[id].(state := Ambiguous)])
    else db
  }

  /** Write a case row if the fence holds. */
  function FencedWrite(db: Db, w: Claimed, row: CaseRow): (Db, bool) {
    if Fence(db, w) then (db.(cases := db.cases[w.caseId := row]), true) else (db, false)
  }

  function Released(row: CaseRow, state: CaseState): CaseRow {
    row.(state := state, leaseToken := None, leaseUntil := None)
  }

  function SaveResultTx(db: Db, w: Claimed, result: Result, terminal: bool): (Db, bool) {
    if !Fence(db, w) then (db, false)
    else
      var row := db.cases[w.caseId].(result := Some(result));
      FencedWrite(db, w, if terminal then Released(row, ResultState(result)) else row)
  }

  function SaveSafetyTx(db: Db, w: Claimed, verdict: Verdict): (Db, bool) {
    if !Fence(db, w) then (db, false)
    else FencedWrite(db, w, db.cases[w.caseId].(safety := Some(verdict)))
  }

  function SettleSafetyTx(db: Db, w: Claimed, verdict: Verdict): (Db, bool) {
    if !Fence(db, w) then (db, false)
    else FencedWrite(db, w, Released(db.cases[w.caseId], if verdict == Block then SafetyBlocked else SafetyReview))
  }

  function SettleDisabledTx(db: Db, w: Claimed, code: FailureCode): (Db, bool) {
    if !Fence(db, w) then (db, false)
    else FencedWrite(db, w, Released(db.cases[w.caseId], Paused).(failure := Some(code)))
  }

  /** The catch handler's write: guarded by token and revision only, not by the lease's expiry. */
  function SettleFailureTx(db: Db, w: Claimed, code: FailureCode, result: Option<Result>): Db {
    if w.caseId in db.cases && db.cases[w.caseId].revision == w.revision
       && db.cases[w.caseId].leaseToken == Some(w.token) && !db.cases[w.caseId].deleted
    then
      var state := if code in {PausedCode, EvidenceStale} then Paused
                   else if result.Some? then ResultState(result.value) else Failed;
      db.(cases := db.cases[w.caseId := Released(db.cases[w.caseId], state).(failure := Some(code))])
    else db
  }

  /** Rows the advice path counts: a completed safe step or a completed ALLOW safety step. */
  predicate RecordedRow(s: StepRow, c: CaseId) {
    s.caseId == c && s.state == Completed &&
    (s.name == SafeStep || (s.name == SafetyStep && s.output.Some? && s.output.value.verdict == Allow))
  }

  function RecordedCount(steps: seq<StepRow>, c: CaseId): nat {
    if |steps| == 0 then 0
    else RecordedCount(steps[..|steps| - 1], c) + if RecordedRow(steps[|steps| - 1], c) then 1 else 0
  }

  // ---------- the sweep, the administrator and the owner ----------

  predicate SweptStep(db: Db, s: StepRow) {
    s.state == Started && s.caseId in db.cases &&
    var b := db.cases[s.caseId];
    b.expiresAt <= db.now || (b.leaseUntil.Some? && b.leaseUntil.value < db.now) || b.deleted || b.state == Cancelled
  }

  function SweepStepsTx(db: Db): Db {
    db.(steps := seq(|db.steps|, i requires 0 <= i < |db.steps| =>
      if SweptStep(db, db.steps[i]) then db.steps[i].(state := Ambiguous) else db.steps[i]))
  }

  predicate Overdue(row: CaseRow, now: int) {
    row.expiresAt <= now && row.state in {Uploading, Queued, Analyzing, Paused}
  }

  function SweepExpiredTx(db: Db): Db {
    db.(cases := map c | c in db.cases ::
      if Overdue(db.cases[c], db.now)
      then Released(db.cases[c], Expired).(revision := db.cases[c].revision + 1, failure := Some(CaseDeadline))
      else db.cases[c])
  }

  /** An owner's visit expires the owner's overdue cases; `cs` are the owner's. */
  function ExpireOwnTx(db: Db, cs: set<CaseId>): Db {
    db.(cases := map c | c in db.cases ::
      if c in cs && Overdue(db.cases[c], db.now)
      then Released(db.cases[c], Expired).(revision := db.cases[c].revision + 1)
      else db.cases[c])
  }

  predicate Exhausted(row: CaseRow, now: int) {
    row.attempts >= MAX_ATTEMPTS && row.state in {Queued, Analyzing} &&
    (row.leaseUntil.None? || row.leaseUntil.value < now)
  }

  function SweepExhaustedTx(db: Db): Db {
    db.(cases := map c | c in db.cases ::
      if Exhausted(db.cases[c], db.now)
      then Released(db.cases[c], Failed).(failure := Some(RetryExhausted))
      else db.cases[c])
  }

  predicate Requeueable(row: CaseRow, from: set<CaseState>, now: int) {
    row.state in from && row.attempts < MAX_ATTEMPTS && row.expiresAt > now && row.leaseToken.None?
  }

  datatype AdminOutcome = Requeued | NotFound | AdviceIneligible | AttemptSpent | RetryUnavailable

  function Requeue(db: Db, c: CaseId): Db
    requires c in db.cases
  {
    db.(cases := db.cases[c := db.cases[c].(state := Queued, failure := None)])
  }

  /** Admin retry: only when no journal row of the case is unfinished. `current` is the
      uninterpreted verdict of the evidence check on the stored result. */
  function AdminRetryTx(db: Db, c: CaseId, current: bool): (Db, AdminOutcome) {
    if c !in db.cases || db.cases[c].deleted then (db, NotFound)
    else if !current then (db, AdviceIneligible)
    else if exists i | 0 <= i < |db.steps| :: db.steps[i].caseId == c && db.steps[i].state != Completed then (db, AttemptSpent)
    else if !Requeueable(db.cases[c], {Paused, Failed}, db.now) then (db, RetryUnavailable)
    else (Requeue(db, c), Requeued)
  }

  /** Admin advice: only for an eligible stored result whose advice step was never begun. */
  function AdminAdviceTx(db: Db, c: CaseId, current: bool): (Db, AdminOutcome) {
    if c !in db.cases || db.cases[c].deleted then (db, NotFound)
    else if !current then (db, AdviceIneligible)
    else if db.cases[c].result.None? || !db.cases[c].result.value.eligible then (db, AdviceIneligible)
    else if LastStep(db.steps, c, AdviceStep).Some? then (db, AttemptSpent)
    else if !Requeueable(db.cases[c], {Complete}, db.now) then (db, RetryUnavailable)
    else (Requeue(db, c), Requeued)
  }

  const CASE_SECONDS := 900

  function CreateTx(db: Db, c: CaseId): Db {
    if c in db.cases then db
    else db.(cases := db.cases[c := CaseRow(1, Uploading, None, None, 0, db.now + CASE_SECONDS, false, None, None, None)])
  }

  function FinaliseTx(db: Db, c: CaseId): Db {
    if c in db.cases && db.cases[c].state == Uploading && db.cases[c].expiresAt > db.now && !db.cases[c].deleted
    then db.(cases := db.cases[c := db.cases[c].(state := Queued)])
    else db
  }

  function CancelTx(db: Db, c: CaseId): Db {
    if c in db.cases && !db.cases[c].deleted
    then db.(cases := db.cases[c := Released(db.cases[c], Cancelled).(revision := db.cases[c].revision + 1)])
    else db
  }

  /** Deletion tombstones the case and erases every journalled output. */
  function TombstoneTx(db: Db, c: CaseId): Db {
    if c in db.cases && !db.cases[c].deleted
    then
      var row := Released(db.cases[c], Deleted)
                 .(revision := db.cases[c].revision + 1, deleted := true, result := None, safety := None);
      db.(cases := db.cases[c := row],
          steps := seq(|db.steps|, i requires 0 <= i < |db.steps| =>
            if db.steps[i].caseId == c then db.steps[i].(output := None) else db.steps[i]))
    else db
  }
}
