/** The authenticity beta as a state machine: any number of workers, the periodic sweep, the
    administrator, the case owner and the clock interleave one transaction at a time. Workers may
    crash anywhere, and an event may be redelivered at any time. */
module BetaProtocol {
  import opened Options
  import opened BetaTables

  datatype Operation = Analysis | Advice

  /** Where a worker stands between two atomic steps of `processBetaEvent`. */
  datatype Phase =
    | Ready                                   // claimed; nothing executed yet
    | InStep(name: StepName, id: nat, called: bool)  // own journal row inserted
    | Abandoning(name: StepName, id: nat)     // the step's try block threw
    | HasSafety(verdict: Verdict)             // safety output in hand, not yet saved on the case
    | SafetySaved(verdict: Verdict)
    | HasSafe                                 // safe output in hand, result not yet compiled
    | Compiled                                // a result in hand, not yet stored
    | Scored                                  // a result is in hand and stored
    | Final                                   // advisory decided; terminal save pending
    | Failing(code: FailureCode)              // in the outer catch handler
    | Gone                                    // returned or crashed

  datatype Worker = Worker(row: Claimed, op: Operation, result: Option<Result>, phase: Phase)

  /** Workers are named by their lease token. `claims` and `calls` record history:
      successful claims per case, and provider executions per case and step. */
  datatype State = State(
    db: Db,
    workers: map<Token, Worker>,
    claims: multiset<CaseId>,
    calls: multiset<(CaseId, StepName)>)

  /** One atomic step of a claimed worker. */
  datatype Action =
    | Begin(name: StepName, key: nat)
    | Execute
    | Finish(output: Output, acknowledged: bool)
    | Throw(code: FailureCode)
    | Abandon
    | LoseStep
    | SaveSafety
    | SettleSafety
    | SettleDisabled(disabledCode: FailureCode)
    | ReuseResult
    | Compile(compiled: Result)
    | SaveCompiled
    | CheckAdvice
    | SkipAdvice(disabled: bool)
    | SaveFinal
    | SettleFailure
    | Crash

  datatype Event =
    | Tick(seconds: nat)
    | Claim(c: CaseId, revision: nat, token: Token, op: Operation)
    | Work(worker: Token, action: Action)
    | SweepSteps | SweepExpired | SweepExhausted
    | ExpireOwn(cs: set<CaseId>)
    | AdminRetry(c: CaseId, current: bool)
    | AdminAdvice(c: CaseId, current: bool)
    | Create(c: CaseId) | Finalise(c: CaseId) | Cancel(c: CaseId) | Tombstone(c: CaseId)

  function Init(): State { State(Db(0, map[], []), map[], multiset{}, multiset{}) }

  function Move(s: State, t: Token, phase: Phase): State
    requires t in s.workers
  {
    s.(workers := s.workers[t := s.workers[t].(phase := phase)])
  }

  /** A worker may begin a step only from the phase its program reaches it in. */
  predicate MayBegin(w: Worker, name: StepName) {
    match name
    case SafetyStep => w.phase == Ready && w.op == Analysis
    case SafeStep => w.phase == SafetySaved(Allow) && w.result.None?
    case AdviceStep => w.phase == Scored && w.result.Some? && w.result.value.eligible && w.result.value.advisory != AdviceComplete
  }

  /** Where a finished step leads its worker. */
  function AfterStep(w: Worker, name: StepName, output: Output): Worker {
    match name
    case SafetyStep => w.(phase := HasSafety(output.verdict))
    case SafeStep => w.(phase := HasSafe)
    case AdviceStep => WithAdvisory(w, AdviceComplete)
  }

  function WithAdvisory(w: Worker, a: Advisory): Worker {
    w.(phase := Final, result := if w.result.Some? then Some(w.result.value.(advisory := a)) else None)
  }

  /** Where a failed step leads: advice failures are swallowed, the others reach the catch handler. */
  function AfterFailedStep(w: Worker, name: StepName, code: FailureCode): Worker {
    if name == AdviceStep then WithAdvisory(w, AttemptConsumed) else w.(phase := Failing(code))
  }

  predicate Running(w: Worker) {
    w.phase !in {Gone} && !w.phase.Failing? && !w.phase.InStep? && !w.phase.Abandoning?
  }

  function ApplyWorker(s: State, t: Token, action: Action): State
    requires t in s.workers
  {
    var w := s.workers[t];
    match action
    case Begin(name, key) =>
      if !MayBegin(w, name) then s
      else
        var (db, begun) := BeginTx(s.db, w.row, name, key);
        var w' := match begun
          case Inserted(id) => w.(phase := InStep(name, id, false))
          case Reused(output) => AfterStep(w, name, output)
          case StaleLease => AfterFailedStep(w, name, Stale)
          case Consumed => AfterFailedStep(w, name, ConsumedCode);
        s.(db := db, workers := s.workers[t := w'])
    case Execute =>
      if w.phase.InStep? && !w.phase.called
      then Move(s, t, w.phase.(called := true)).(calls := s.calls + multiset{(w.row.caseId, w.phase.name)})
      else s
    case Finish(output, acknowledged) =>
      if w.phase.InStep? && w.phase.called then
        var (db, ok) := CompleteTx(s.db, w.row, w.phase.id, output);
        var w' := if ok && acknowledged then AfterStep(w, w.phase.name, output)
                  else w.(phase := Abandoning(w.phase.name, w.phase.id));
        s.(db := db, workers := s.workers[t := w'])
      else s
    case Throw(code) =>
      // only a failed fence throws the stale code
      if code == Stale && Fence(s.db, w.row) && !w.phase.InStep? then s
      else if w.phase.InStep? then Move(s, t, Abandoning(w.phase.name, w.phase.id))
      else if Running(w) then Move(s, t, Failing(code))
      else s
    case Abandon =>
      if w.phase.Abandoning?
      then s.(db := AbandonTx(s.db, w.phase.id), workers := s.workers[t := AfterFailedStep(w, w.phase.name, ConsumedCode)])
      else s
    case LoseStep =>
      // the begin committed unacknowledged, or the write that abandons the row failed
      if w.phase.Abandoning? || (w.phase.InStep? && !w.phase.called)
      then s.(workers := s.workers[t := AfterFailedStep(w, w.phase.name, ExecutionFailed)])
      else s
    case SaveSafety =>
      if w.phase.HasSafety?
      then Move(s, t, SafetySaved(w.phase.verdict)).(db := SaveSafetyTx(s.db, w.row, w.phase.verdict).0)
      else s
    case SettleSafety =>
      if w.phase.SafetySaved? && w.phase.verdict != Allow
      then Move(s, t, Gone).(db := SettleSafetyTx(s.db, w.row, w.phase.verdict).0)
      else s
    case SettleDisabled(code) =>
      if w.phase == SafetySaved(Allow) && code in {BlockedRights, BlockedRuntime}
      then Move(s, t, Gone).(db := SettleDisabledTx(s.db, w.row, code).0)
      else s
    case ReuseResult =>
      if w.phase == SafetySaved(Allow) && w.result.Some? then Move(s, t, Scored) else s
    case Compile(compiled) =>
      if w.phase == HasSafe then s.(workers := s.workers[t := w.(result := Some(compiled), phase := Compiled)]) else s
    case SaveCompiled =>
      if w.phase == Compiled && w.result.Some? then
        var (db, ok) := SaveResultTx(s.db, w.row, w.result.value, false);
        Move(s, t, if ok then Scored else Failing(Stale)).(db := db)
      else s
    case CheckAdvice =>
      if w.phase == Ready && w.op == Advice then
        Move(s, t, if w.result.Some? && w.result.value.eligible && RecordedCount(s.db.steps, w.row.caseId) == 2
                   then Scored else Failing(ConsumedCode))
      else s
    case SkipAdvice(disabled) =>
      if w.phase != Scored || w.result.None? then s
      else if !w.result.value.eligible || w.result.value.advisory == AdviceComplete then Move(s, t, Final)
      else s.(workers := s.workers[t := WithAdvisory(w, if disabled then Disabled else AttemptConsumed)])
    case SaveFinal =>
      if w.phase == Final && w.result.Some? then
        var (db, ok) := SaveResultTx(s.db, w.row, w.result.value, true);
        Move(s, t, if ok then Gone else Failing(Stale)).(db := db)
      else s
    case SettleFailure =>
      if w.phase.Failing?
      then Move(s, t, Gone).(db := SettleFailureTx(s.db, w.row, w.phase.code, w.result))
      else s
    case Crash => Move(s, t, Gone)
  }

  /** One atomic step of the whole system. Disabled events leave the state alone, and a claim
      is disabled when its token was used before: tokens are fresh UUIDs. */
  function Apply(s: State, e: Event): State {
    match e
    case Tick(seconds) => s.(db := s.db.(now := s.db.now + seconds))
    case Claim(c, revision, token, op) =>
      if token in s.workers then s
      else
        var (db, claimed) := ClaimTx(s.db, c, revision, token);
        if claimed.None? then s
        else s.(db := db, claims := s.claims + multiset{c},
                workers := s.workers[token := Worker(claimed.value, op, claimed.value.result, Ready)])
    case SweepSteps => s.(db := SweepStepsTx(s.db))
    case SweepExpired => s.(db := SweepExpiredTx(s.db))
    case SweepExhausted => s.(db := SweepExhaustedTx(s.db))
    case ExpireOwn(cs) => s.(db := ExpireOwnTx(s.db, cs))
    case AdminRetry(c, current) => s.(db := AdminRetryTx(s.db, c, current).0)
    case AdminAdvice(c, current) => s.(db := AdminAdviceTx(s.db, c, current).0)
    case Create(c) => s.(db := CreateTx(s.db, c))
    case Finalise(c) => s.(db := FinaliseTx(s.db, c))
    case Cancel(c) => s.(db := CancelTx(s.db, c))
    case Tombstone(c) => s.(db := TombstoneTx(s.db, c))
    case Work(t, action) => if t in s.workers then ApplyWorker(s, t, action) else s
  }

  /** The state after a finite run of events. */
  function Run(s: State, es: seq<Event>): State {
    if |es| == 0 then s else Apply(Run(s, es[..|es| - 1]), es[|es| - 1])
  }
}
