/** What the beta's operations answer, in every reachable state: exactly when each is granted, and the
    row, the journal and the worker it leaves. Everything is said of rows and phases. */
module BetaAnswers {
  import opened Options
  import opened BetaTables
  import opened BetaProtocol
  import opened BetaInvariant
  import opened BetaPreservation
  import opened BetaTheorems
  import opened BetaSettlement

  // ---------- the fence ----------

  /** The worker's case still carries its token. */
  ghost predicate Held(s: State, t: Token)
    requires t in s.workers
  {
    s.workers[t].row.caseId in s.db.cases && s.db.cases[s.workers[t].row.caseId].leaseToken == Some(t)
  }

  /** Neither the worker's lease nor its case has run out. */
  ghost predicate InTime(s: State, t: Token)
    requires t in s.workers
  {
    var c := s.workers[t].row.caseId;
    s.db.now < s.workers[t].row.leaseUntil && c in s.db.cases && s.db.now < s.db.cases[c].expiresAt
  }

  lemma HeldFence(s: State, t: Token)
    requires Inv(s) && t in s.workers
    ensures Fence(s.db, s.workers[t].row) <==> Held(s, t) && InTime(s, t)
  {
    assert WorkerRowOk(s, t);
    var c := s.workers[t].row.caseId;
    assert LeaseShape(s.db.cases[c]) && TokenOwned(s, c);
    hide Inv, WorkerRowOk;
  }

  /** The fence's six tests come down to three: the token, the lease and the case's own time. */
  lemma FenceExactly(es: seq<Event>, t: Token)
    requires t in Run(Init(), es).workers
    ensures var s := Run(Init(), es); Fence(s.db, s.workers[t].row) <==> Held(s, t) && InTime(s, t)
  {
    RunKeepsInvariant(es);
    HeldFence(Run(Init(), es), t);
  }

  // ---------- the claim ----------

  /** No lease is live, and the case waits for this revision with time and attempts left. */
  ghost predicate Grants(db: Db, c: CaseId, revision: nat) {
    && (forall d | d in db.cases && db.cases[d].leaseUntil.Some? :: db.cases[d].leaseUntil.value <= db.now)
    && c in db.cases && db.cases[c].state in {Queued, Analyzing} && db.cases[c].revision == revision
    && db.now < db.cases[c].expiresAt && db.cases[c].attempts < 3
  }

  lemma BusyExactly(s: State)
    requires Inv(s)
    ensures Busy(s.db) <==> exists d :: d in s.db.cases && s.db.cases[d].leaseUntil.Some? && s.db.cases[d].leaseUntil.value > s.db.now
  {
    assert forall d | d in s.db.cases :: LeaseShape(s.db.cases[d]);
    if d :| d in s.db.cases && s.db.cases[d].leaseUntil.Some? && s.db.cases[d].leaseUntil.value > s.db.now {
      assert d in s.db.cases.Keys && Live(s.db.cases[d], s.db.now);
    }
    if Busy(s.db) {
      var d :| d in s.db.cases.Keys && Live(s.db.cases[d], s.db.now);
      assert d in s.db.cases && s.db.cases[d].leaseUntil.Some?;
    }
    hide Inv, LeaseShape;
  }

  lemma GrantsExactly(s: State, c: CaseId, revision: nat)
    requires Inv(s)
    ensures Grants(s.db, c, revision) <==> !Busy(s.db) && Claimable(s.db, c, revision)
    ensures Grants(s.db, c, revision) ==> c in s.db.cases
  {
    BusyExactly(s);
    if c in s.db.cases { assert LeaseShape(s.db.cases[c]); }
    hide Inv, Busy;
  }

  /** The case is taken for five minutes at the cost of one attempt; nothing else is touched. */
  ghost predicate Taken(db: Db, c: CaseId, token: Token, db': Db)
    requires c in db.cases
  {
    var row := db.cases[c];
    db' == db.(cases := db.cases[c := row.(state := Analyzing, leaseToken := Some(token),
                                           leaseUntil := Some(db.now + 300), attempts := row.attempts + 1)])
  }

  lemma ClaimTxTakes(db: Db, c: CaseId, revision: nat, token: Token)
    ensures var (db', claimed) := ClaimTx(db, c, revision, token);
            if !Busy(db) && Claimable(db, c, revision)
            then Taken(db, c, token, db') && claimed == Some(Claimed(c, revision, token, db.now + 300, db.cases[c].result))
            else db' == db && claimed.None?
  {
    hide Busy;
  }

  /** A claim under a fresh token is granted exactly then, and its worker starts with the result the case
      holds. */
  lemma ClaimExactly(es: seq<Event>, c: CaseId, revision: nat, token: Token, op: Operation)
    requires token !in Run(Init(), es).workers
    ensures var s := Run(Init(), es);
            var s' := Apply(s, Claim(c, revision, token, op));
            && (token in s'.workers <==> Grants(s.db, c, revision))
            && (!Grants(s.db, c, revision) ==> s' == s)
            && (Grants(s.db, c, revision) ==>
                  && c in s.db.cases && Taken(s.db, c, token, s'.db)
                  && s'.workers == s.workers[token := Worker(Claimed(c, revision, token, s.db.now + 300, s.db.cases[c].result),
                                                             op, s.db.cases[c].result, Ready)]
                  && s'.claims == s.claims + multiset{c} && s'.calls == s.calls)
  {
    var s := Run(Init(), es);
    RunKeepsInvariant(es);
    hide Inv, Run, Busy, Claimable, Grants, ClaimTx, Taken;
    GrantsExactly(s, c, revision);
    ClaimTxTakes(s.db, c, revision, token);
  }

  // ---------- a paid step ----------

  /** Whose turn it is to begin a step. */
  predicate ItsTurn(w: Worker, name: StepName) {
    match name
    case SafetyStep => w.op == Analysis && w.phase == Ready
    case SafeStep => w.phase == SafetySaved(Allow) && w.result.None?
    case AdviceStep => w.phase == Scored && w.result.Some? && w.result.value.eligible && w.result.value.advisory in {NotRun, Disabled, AttemptConsumed}
  }

  /** The worker has the step's output in its hand. */
  predicate HasOutput(w: Worker, name: StepName, o: Output, w': Worker) {
    match name
    case SafetyStep => w' == w.(phase := HasSafety(o.verdict))
    case SafeStep => w' == w.(phase := HasSafe)
    case AdviceStep => w.result.Some? && w' == w.(phase := Final, result := Some(w.result.value.(advisory := AdviceComplete)))
  }

  /** The step gave nothing: the first two end in the catch handler, advice is noted as consumed. */
  predicate HasNothing(w: Worker, name: StepName, code: FailureCode, w': Worker) {
    if name == AdviceStep then w.result.Some? && w' == w.(phase := Final, result := Some(w.result.value.(advisory := AttemptConsumed)))
    else w' == w.(phase := Failing(code))
  }

  /** The row can be reused under the key: completed, its output still there, and the keys agree. */
  predicate Reusable(r: StepRow, key: nat) { r.state == Completed && r.output.Some? && r.reuseKey == key }

  /** Only this worker has moved, and no provider was called. */
  ghost predicate OnlyMoves(s: State, t: Token, s': State, w': Worker)
    requires t in s.workers
  {
    s'.workers == s.workers[t := w'] && s'.claims == s.claims && s'.calls == s.calls
  }

  lemma LastIsOnly(steps: seq<StepRow>, c: CaseId, name: StepName, i: nat)
    requires Unique(steps) && RowFor(steps, i, c, name)
    ensures LastStep(steps, c, name) == Some(i)
  {
    var j := LastStep(steps, c, name);
    assert j.Some? && RowFor(steps, j.value, c, name);
  }

  /** Beginning, where the case has a row of that name. */
  lemma BeginsWithRow(s: State, t: Token, name: StepName, key: nat, i: nat)
    requires Inv(s) && t in s.workers && ItsTurn(s.workers[t], name) && Held(s, t) && InTime(s, t)
    requires RowFor(s.db.steps, i, s.workers[t].row.caseId, name)
    ensures var s' := Apply(s, Work(t, Begin(name, key)));
            var r, w := s.db.steps[i], s.workers[t];
            && t in s'.workers && s'.db == s.db && OnlyMoves(s, t, s', s'.workers[t])
            && if Reusable(r, key) then HasOutput(w, name, r.output.value, s'.workers[t]) else HasNothing(w, name, ConsumedCode, s'.workers[t])
  {
    HeldFence(s, t);
    InvUnique(s);
    hide Inv, Fence, Held, InTime, Unique;
    LastIsOnly(s.db.steps, s.workers[t].row.caseId, name, i);
    hide LastStep;
  }

  lemma InvUnique(s: State)
    requires Inv(s)
    ensures Unique(s.db.steps)
  {
  }

  lemma LastHasRow(steps: seq<StepRow>, c: CaseId, name: StepName)
    ensures LastStep(steps, c, name).Some? ==> HasRow(steps, c, name)
  {
    var i := LastStep(steps, c, name);
    if i.Some? { assert RowFor(steps, i.value, c, name); }
  }

  lemma BeginsWithoutRow(s: State, t: Token, name: StepName, key: nat)
    requires Inv(s) && t in s.workers && ItsTurn(s.workers[t], name) && Held(s, t) && InTime(s, t)
    requires !HasRow(s.db.steps, s.workers[t].row.caseId, name)
    ensures var s' := Apply(s, Work(t, Begin(name, key)));
            var w := s.workers[t];
            && s'.db == s.db.(steps := s.db.steps + [StepRow(w.row.caseId, w.row.revision, name, Started, key, None)])
            && OnlyMoves(s, t, s', w.(phase := InStep(name, |s.db.steps|, false)))
  {
    var c := s.workers[t].row.caseId;
    HeldFence(s, t);
    LastHasRow(s.db.steps, c, name);
    hide Inv, Fence, Held, InTime, LastStep, HasRow;
  }

  lemma BeginsLate(s: State, t: Token, name: StepName, key: nat)
    requires Inv(s) && t in s.workers
    ensures var s' := Apply(s, Work(t, Begin(name, key)));
            && (!ItsTurn(s.workers[t], name) ==> s' == s)
            && (ItsTurn(s.workers[t], name) && !(Held(s, t) && InTime(s, t)) ==>
                  t in s'.workers && s'.db == s.db && OnlyMoves(s, t, s', s'.workers[t]) && HasNothing(s.workers[t], name, Stale, s'.workers[t]))
  {
    HeldFence(s, t);
    hide Inv, Fence, Held, InTime, LastStep;
  }

  /** Beginning a step, in every reachable state. Out of turn nothing happens, and without token or time
      the step gives nothing. Else: the output of the case's own row comes into the worker's hand, with
      journal and provider calls as they were, if and only if that row is completed, still holds its output
      and carries the presented key; a row is inserted if and only if the case has none of that name; and
      otherwise the attempt counts as consumed. */
  lemma BeginExactly(es: seq<Event>, t: Token, name: StepName, key: nat)
    requires t in Run(Init(), es).workers
    ensures var s := Run(Init(), es);
            var w, c := s.workers[t], s.workers[t].row.caseId;
            var s' := Apply(s, Work(t, Begin(name, key)));
            var granted := ItsTurn(w, name) && Held(s, t) && InTime(s, t);
            && t in s'.workers
            && (!ItsTurn(w, name) ==> s' == s)
            && (ItsTurn(w, name) ==> OnlyMoves(s, t, s', s'.workers[t]))
            && (ItsTurn(w, name) && !granted ==> s'.db == s.db && HasNothing(w, name, Stale, s'.workers[t]))
            && (granted ==> forall i: nat | RowFor(s.db.steps, i, c, name) ::
                  && s'.db == s.db
                  && (forall o :: HasOutput(w, name, o, s'.workers[t]) ==> Reusable(s.db.steps[i], key))
                  && (Reusable(s.db.steps[i], key) ==> HasOutput(w, name, s.db.steps[i].output.value, s'.workers[t]))
                  && (!Reusable(s.db.steps[i], key) ==> HasNothing(w, name, ConsumedCode, s'.workers[t])))
            && (s'.db != s.db <==> granted && !HasRow(s.db.steps, c, name))
            && (s'.db != s.db ==>
                  && s'.db == s.db.(steps := s.db.steps + [StepRow(c, w.row.revision, name, Started, key, None)])
                  && s'.workers[t] == w.(phase := InStep(name, |s.db.steps|, false)))
  {
    var s := Run(Init(), es);
    var w, c := s.workers[t], s.workers[t].row.caseId;
    RunKeepsInvariant(es);
    hide Run, Inv, Apply, Held, InTime;
    BeginsLate(s, t, name, key);
    if ItsTurn(w, name) && Held(s, t) && InTime(s, t) {
      forall i: nat | RowFor(s.db.steps, i, c, name) ensures
        var s' := Apply(s, Work(t, Begin(name, key)));
        && t in s'.workers && s'.db == s.db && OnlyMoves(s, t, s', s'.workers[t])
        && if Reusable(s.db.steps[i], key) then HasOutput(w, name, s.db.steps[i].output.value, s'.workers[t])
           else HasNothing(w, name, ConsumedCode, s'.workers[t])
      {
        BeginsWithRow(s, t, name, key, i);
      }
      if HasRow(s.db.steps, c, name) {
        var i: nat :| RowFor(s.db.steps, i, c, name);
      } else {
        BeginsWithoutRow(s, t, name, key);
      }
    }
  }

  /** From the compiled result on, a result is in the worker's hand. */
  ghost predicate ResultInHand(w: Worker) {
    && (w.phase == Compiled || w.phase == Scored || w.phase == Final ==> w.result.Some?)
    && ((w.phase.InStep? || w.phase.Abandoning?) && w.phase.name == AdviceStep ==> w.result.Some?)
  }

  ghost predicate AllInHand(s: State) { forall t | t in s.workers :: ResultInHand(s.workers[t]) }

  lemma InHandStep(s: State, t: Token, action: Action)
    requires t in s.workers && ResultInHand(s.workers[t])
    ensures t in ApplyWorker(s, t, action).workers && ResultInHand(ApplyWorker(s, t, action).workers[t])
  {
    hide BeginTx, CompleteTx, AbandonTx, SaveSafetyTx, SettleSafetyTx, SettleDisabledTx, SaveResultTx, SettleFailureTx, RecordedCount, Fence;
  }

  lemma {:induction false} RunKeepsInHand(es: seq<Event>)
    ensures AllInHand(Run(Init(), es))
  {
    if |es| > 0 {
      var s, e := Run(Init(), es[..|es| - 1]), es[|es| - 1];
      RunKeepsInHand(es[..|es| - 1]);
      var s' := Apply(s, e);
      hide ResultInHand, ApplyWorker;
      forall t | t in s'.workers ensures ResultInHand(s'.workers[t]) {
        if !e.Work? {
          if t in s.workers { WorkersStay(s, e, t); } else { NewClaim(s, e, t); ReadyInHand(s'.workers[t]); }
        } else if e.worker in s.workers {
          ClaimsAreKept(s, e.worker, e.action);
          if t == e.worker { InHandStep(s, t, e.action); } else { OthersUntouched(s, e.worker, e.action, t); }
        }
      }
    }
  }

  lemma ReadyInHand(w: Worker)
    requires w.phase == Ready
    ensures ResultInHand(w)
  {
  }

  /** The provider is called once, on the worker's own row. */
  lemma ExecuteExactly(s: State, t: Token)
    requires t in s.workers
    ensures var w := s.workers[t];
            var s' := Apply(s, Work(t, Execute));
            && s'.db == s.db && s'.claims == s.claims
            && (s' != s <==> w.phase.InStep? && !w.phase.called)
            && (s' != s ==> s'.calls == s.calls + multiset{(w.row.caseId, w.phase.name)} && s'.workers == s.workers[t := w.(phase := InStep(w.phase.name, w.phase.id, true))])
  {
    assert forall m: multiset<(CaseId, StepName)>, x :: (m + multiset{x})[x] == m[x] + 1;
  }

  /** A called step is completed exactly under token and time: its row takes the output. The output is in
      the worker's hand when the commit was also acknowledged; else the worker gives the row up. */
  lemma FinishExactly(es: seq<Event>, t: Token, o: Output, acknowledged: bool)
    requires var s := Run(Init(), es); t in s.workers && s.workers[t].phase.InStep? && s.workers[t].phase.called
    ensures var s := Run(Init(), es);
            var w := s.workers[t];
            var s' := Apply(s, Work(t, Finish(o, acknowledged)));
            var good := Held(s, t) && InTime(s, t);
            && t in s'.workers && OnlyMoves(s, t, s', s'.workers[t]) && s'.db.cases == s.db.cases && s'.db.now == s.db.now
            && w.phase.id < |s.db.steps|
            && s'.db.steps == (if good then s.db.steps[w.phase.id := s.db.steps[w.phase.id].(state := Completed, output := Some(o))] else s.db.steps)
            && (if good && acknowledged then HasOutput(w, w.phase.name, o, s'.workers[t])
                else s'.workers[t] == w.(phase := Abandoning(w.phase.name, w.phase.id)))
  {
    var s := Run(Init(), es);
    RunKeepsInvariant(es);
    HeldFence(s, t);
    if Fence(s.db, s.workers[t].row) { FenceMeansStarted(s, t); }
    RunKeepsInHand(es);
    assert ResultInHand(s.workers[t]);
    assert WorkerRowOk(s, t);
    hide Run, Inv, Fence, Held, InTime;
  }

  /** A row given up becomes ambiguous if it was still started; the step then gave nothing. */
  lemma GiveUpExactly(es: seq<Event>, t: Token)
    requires var s := Run(Init(), es); t in s.workers && s.workers[t].phase.Abandoning?
    ensures var s := Run(Init(), es);
            var w := s.workers[t];
            var s' := Apply(s, Work(t, Abandon));
            && t in s'.workers && OnlyMoves(s, t, s', s'.workers[t]) && HasNothing(w, w.phase.name, ConsumedCode, s'.workers[t])
            && w.phase.id < |s.db.steps|
            && s'.db == (if s.db.steps[w.phase.id].state == Started
                         then s.db.(steps := s.db.steps[w.phase.id := s.db.steps[w.phase.id].(state := Ambiguous)]) else s.db)
  {
    var s := Run(Init(), es);
    RunKeepsInvariant(es);
    RunKeepsInHand(es);
    assert ResultInHand(s.workers[t]) && WorkerRowOk(s, t);
    hide Run, Inv;
  }

  // ---------- what the worker writes on its case ----------

  /** The state a result stands for. */
  predicate Tells(state: CaseState, status: ResultStatus) {
    && (status == StatusComplete <==> state == Complete) && (status == StatusInconclusive <==> state == Inconclusive)
    && (status == StatusUnsupported <==> state == Unsupported) && (status == StatusFailed <==> state == Failed)
  }

  /** The case row is the only thing written; its lease is kept in analysis and given back when it leaves;
      all else but safety, result and failure code stays. */
  ghost predicate Writes(db: Db, c: CaseId, db': Db) {
    && c in db.cases && c in db'.cases && db' == db.(cases := db.cases[c := db'.cases[c]])
    && var x, y := db.cases[c], db'.cases[c];
       && y.revision == x.revision && y.attempts == x.attempts && y.expiresAt == x.expiresAt && y.deleted == x.deleted
       && (y.state == Analyzing ==> y.leaseToken == x.leaseToken && y.leaseUntil == x.leaseUntil)
       && (y.state != Analyzing ==> y.leaseToken.None? && y.leaseUntil.None?)
  }

  /** The result is stored, by the final save with the state it stands for. */
  ghost predicate ResultStored(db: Db, c: CaseId, db': Db, r: Result, terminal: bool) {
    && Writes(db, c, db')
    && var x, y := db.cases[c], db'.cases[c];
       && y.safety == x.safety && y.failure == x.failure && y.result == Some(r)
       && if terminal then Tells(y.state, r.status) else y.state == Analyzing
  }

  ghost predicate VerdictStored(db: Db, c: CaseId, db': Db, v: Verdict) {
    && Writes(db, c, db')
    && var x, y := db.cases[c], db'.cases[c];
       y.result == x.result && y.failure == x.failure && y.state == Analyzing && y.safety == Some(v)
  }

  ghost predicate VerdictSettles(db: Db, c: CaseId, db': Db, v: Verdict) {
    && Writes(db, c, db')
    && var x, y := db.cases[c], db'.cases[c];
       && y.result == x.result && y.failure == x.failure && y.safety == x.safety
       && (v == Block ==> y.state == SafetyBlocked) && (v == Review ==> y.state == SafetyReview)
  }

  ghost predicate CodePauses(db: Db, c: CaseId, db': Db, code: FailureCode) {
    && Writes(db, c, db')
    && var x, y := db.cases[c], db'.cases[c];
       y.result == x.result && y.safety == x.safety && y.state == Paused && y.failure == Some(code)
  }

  /** A pause for the two codes that mean "not now", else the state of the result in hand, else failed. */
  ghost predicate FailureSettles(db: Db, c: CaseId, db': Db, code: FailureCode, r: Option<Result>) {
    && Writes(db, c, db')
    && var x, y := db.cases[c], db'.cases[c];
       && y.result == x.result && y.safety == x.safety && y.failure == Some(code)
       && (code == PausedCode || code == EvidenceStale ==> y.state == Paused)
       && (code != PausedCode && code != EvidenceStale && r.None? ==> y.state == Failed)
       && (code != PausedCode && code != EvidenceStale && r.Some? ==> Tells(y.state, r.value.status))
  }

  lemma FencedWritesTell(db: Db, w: Claimed, v: Verdict, code: FailureCode, r: Result, terminal: bool)
    ensures SaveResultTx(db, w, r, terminal).1 == Fence(db, w)
    ensures !Fence(db, w) ==> SaveResultTx(db, w, r, terminal).0 == SaveSafetyTx(db, w, v).0 == SettleSafetyTx(db, w, v).0
                              == SettleDisabledTx(db, w, code).0 == db
    ensures Fence(db, w) ==> ResultStored(db, w.caseId, SaveResultTx(db, w, r, terminal).0, r, terminal)
    ensures Fence(db, w) ==> VerdictStored(db, w.caseId, SaveSafetyTx(db, w, v).0, v)
    ensures Fence(db, w) ==> VerdictSettles(db, w.caseId, SettleSafetyTx(db, w, v).0, v)
    ensures Fence(db, w) ==> CodePauses(db, w.caseId, SettleDisabledTx(db, w, code).0, code)
  {
  }

  lemma FailureTells(db: Db, w: Claimed, code: FailureCode, r: Option<Result>)
    requires w.caseId in db.cases
    requires db.cases[w.caseId].leaseToken == Some(w.token) ==> db.cases[w.caseId].revision == w.revision && !db.cases[w.caseId].deleted
    ensures var db' := SettleFailureTx(db, w, code, r);
            if db.cases[w.caseId].leaseToken == Some(w.token) then FailureSettles(db, w.caseId, db', code, r) else db' == db
  {
  }

  lemma OwnCase(s: State, t: Token)
    requires Inv(s) && t in s.workers
    ensures var w := s.workers[t].row;
            && w.token == t && w.caseId in s.db.cases
            && (Held(s, t) ==> s.db.cases[w.caseId].revision == w.revision && !s.db.cases[w.caseId].deleted)
  {
    assert WorkerRowOk(s, t);
    var c := s.workers[t].row.caseId;
    assert LeaseShape(s.db.cases[c]) && TokenOwned(s, c);
    hide Inv, WorkerRowOk;
  }

  lemma MoveMoves(s: State, t: Token, phase: Phase, db: Db)
    requires t in s.workers
    ensures OnlyMoves(s, t, Move(s, t, phase).(db := db), s.workers[t].(phase := phase))
  {
  }

  lemma SaveShape(s: State, t: Token, terminal: bool)
    requires t in s.workers && s.workers[t].phase == (if terminal then Final else Compiled) && s.workers[t].result.Some?
    ensures var (db, ok) := SaveResultTx(s.db, s.workers[t].row, s.workers[t].result.value, terminal);
            Apply(s, Work(t, if terminal then SaveFinal else SaveCompiled))
            == Move(s, t, if !ok then Failing(Stale) else if terminal then Gone else Scored).(db := db)
  {
    hide SaveResultTx;
  }

  lemma CatchShape(s: State, t: Token)
    requires t in s.workers && s.workers[t].phase.Failing?
    ensures var w := s.workers[t];
            Apply(s, Work(t, SettleFailure)) == Move(s, t, Gone).(db := SettleFailureTx(s.db, w.row, w.phase.code, w.result))
  {
    hide SettleFailureTx;
  }

  lemma DisabledShape(s: State, t: Token, code: FailureCode)
    requires t in s.workers && s.workers[t].phase == SafetySaved(Allow)
    ensures Apply(s, Work(t, SettleDisabled(code))) == if code == BlockedRights || code == BlockedRuntime
              then Move(s, t, Gone).(db := SettleDisabledTx(s.db, s.workers[t].row, code).0) else s
  {
    hide SettleDisabledTx;
  }

  lemma SafetyShape(s: State, t: Token)
    requires t in s.workers
    ensures var p := s.workers[t].phase;
            && (p.HasSafety? ==> Apply(s, Work(t, SaveSafety)) == Move(s, t, SafetySaved(p.verdict)).(db := SaveSafetyTx(s.db, s.workers[t].row, p.verdict).0))
            && (p.SafetySaved? && p.verdict == Allow ==> Apply(s, Work(t, SettleSafety)) == s)
            && (p.SafetySaved? && p.verdict != Allow ==>
                  Apply(s, Work(t, SettleSafety)) == Move(s, t, Gone).(db := SettleSafetyTx(s.db, s.workers[t].row, p.verdict).0))
  {
    hide SaveSafetyTx, SettleSafetyTx;
  }

  /** The two saves: under token and time the result in hand is stored; else nothing is written and the
      worker fails as stale. */
  lemma SaveExactly(es: seq<Event>, t: Token, terminal: bool)
    requires var s := Run(Init(), es); t in s.workers && s.workers[t].phase == if terminal then Final else Compiled
    ensures var s := Run(Init(), es);
            var w := s.workers[t];
            var s' := Apply(s, Work(t, if terminal then SaveFinal else SaveCompiled));
            var good := Held(s, t) && InTime(s, t);
            && w.result.Some?
            && OnlyMoves(s, t, s', w.(phase := if !good then Failing(Stale) else if terminal then Gone else Scored))
            && if good then ResultStored(s.db, w.row.caseId, s'.db, w.result.value, terminal) else s'.db == s.db
  {
    var s := Run(Init(), es);
    RunKeepsInvariant(es);
    RunKeepsInHand(es);
    HeldFence(s, t);
    assert ResultInHand(s.workers[t]);
    hide Run, Inv, Held, InTime, Fence, ResultStored, AllInHand, SaveResultTx, Apply, OnlyMoves;
    SaveShape(s, t, terminal);
    var (db, ok) := SaveResultTx(s.db, s.workers[t].row, s.workers[t].result.value, terminal);
    MoveMoves(s, t, if !ok then Failing(Stale) else if terminal then Gone else Scored, db);
    FencedWritesTell(s.db, s.workers[t].row, Allow, Stale, s.workers[t].result.value, terminal);
  }

  /** The safety verdict: saved as it is, and a case that did not pass is settled by it. */
  lemma SafetyExactly(es: seq<Event>, t: Token)
    requires var s := Run(Init(), es); t in s.workers && (s.workers[t].phase.HasSafety? || s.workers[t].phase.SafetySaved?)
    ensures var s := Run(Init(), es);
            var w := s.workers[t];
            var v, c := w.phase.verdict, w.row.caseId;
            var good := Held(s, t) && InTime(s, t);
            if w.phase.HasSafety? then
              var s' := Apply(s, Work(t, SaveSafety));
              OnlyMoves(s, t, s', w.(phase := SafetySaved(v))) && if good then VerdictStored(s.db, c, s'.db, v) else s'.db == s.db
            else
              var s' := Apply(s, Work(t, SettleSafety));
              if v == Allow then s' == s
              else OnlyMoves(s, t, s', w.(phase := Gone)) && if good then VerdictSettles(s.db, c, s'.db, v) else s'.db == s.db
  {
    var s := Run(Init(), es);
    RunKeepsInvariant(es);
    HeldFence(s, t);
    hide Run, Inv, Held, InTime, Fence, VerdictStored, VerdictSettles, SaveSafetyTx, SettleSafetyTx, Apply, OnlyMoves;
    var p := s.workers[t].phase;
    SafetyShape(s, t);
    MoveMoves(s, t, SafetySaved(p.verdict), SaveSafetyTx(s.db, s.workers[t].row, p.verdict).0);
    MoveMoves(s, t, Gone, SettleSafetyTx(s.db, s.workers[t].row, p.verdict).0);
    FencedWritesTell(s.db, s.workers[t].row, s.workers[t].phase.verdict, Stale, Result(StatusFailed, false, NotRun), false);
  }

  /** A missing approval pauses the case under its own code. */
  lemma DisabledExactly(es: seq<Event>, t: Token, code: FailureCode)
    requires var s := Run(Init(), es); t in s.workers && s.workers[t].phase == SafetySaved(Allow)
    ensures var s := Run(Init(), es);
            var s' := Apply(s, Work(t, SettleDisabled(code)));
            if code != BlockedRights && code != BlockedRuntime then s' == s
            else
              && OnlyMoves(s, t, s', s.workers[t].(phase := Gone))
              && if Held(s, t) && InTime(s, t) then CodePauses(s.db, s.workers[t].row.caseId, s'.db, code) else s'.db == s.db
  {
    var s := Run(Init(), es);
    RunKeepsInvariant(es);
    HeldFence(s, t);
    hide Run, Inv, Held, InTime, Fence, CodePauses, SettleDisabledTx, Apply, OnlyMoves;
    DisabledShape(s, t, code);
    MoveMoves(s, t, Gone, SettleDisabledTx(s.db, s.workers[t].row, code).0);
    FencedWritesTell(s.db, s.workers[t].row, Allow, code, Result(StatusFailed, false, NotRun), false);
  }

  /** The catch handler writes exactly when the case still carries the worker's token, in time or not. */
  lemma CatchExactly(es: seq<Event>, t: Token)
    requires var s := Run(Init(), es); t in s.workers && s.workers[t].phase.Failing?
    ensures var s := Run(Init(), es);
            var w := s.workers[t];
            var s' := Apply(s, Work(t, SettleFailure));
            && OnlyMoves(s, t, s', w.(phase := Gone))
            && if Held(s, t) then FailureSettles(s.db, w.row.caseId, s'.db, w.phase.code, w.result) else s'.db == s.db
  {
    var s := Run(Init(), es);
    RunKeepsInvariant(es);
    OwnCase(s, t);
    hide Run, Inv, FailureSettles, SettleFailureTx, Apply, OnlyMoves;
    CatchShape(s, t);
    MoveMoves(s, t, Gone, SettleFailureTx(s.db, s.workers[t].row, s.workers[t].phase.code, s.workers[t].result));
    FailureTells(s.db, s.workers[t].row, s.workers[t].phase.code, s.workers[t].result);
  }

  // ---------- the way to the advisory ----------

  lemma BothGates(s: State, c: CaseId)
    requires Inv(s) && c in s.db.cases && !s.db.cases[c].deleted && SafetyPassed(s.db, c) && SafePassed(s.db, c)
    ensures RecordedCount(s.db.steps, c) == 2
  {
    var i: nat :| SafetyRowOk(s.db, i, c);
    var j: nat :| SafeRowOk(s.db, j, c);
    InvUnique(s);
    hide Inv;
    if i < j { CountTwo(s.db.steps, c, i, j); } else { CountTwo(s.db.steps, c, j, i); }
    RecordedBound(s.db.steps, c);
  }

  lemma {:induction false} CountTwo(steps: seq<StepRow>, c: CaseId, i: nat, j: nat)
    requires i < j < |steps| && RecordedRow(steps[i], c) && RecordedRow(steps[j], c)
    ensures RecordedCount(steps, c) >= 2
  {
    var n := |steps| - 1;
    if j < n { CountTwo(steps[..n], c, i, j); } else { CountOne(steps[..n], c, i); }
  }

  lemma {:induction false} CountOne(steps: seq<StepRow>, c: CaseId, i: nat)
    requires i < |steps| && RecordedRow(steps[i], c)
    ensures RecordedCount(steps, c) >= 1
  {
    var n := |steps| - 1;
    if i < n { CountOne(steps[..n], c, i); }
  }

  /** The advice path opens exactly for an eligible result whose case, not deleted, has both gates
      journalled: a completed safe step and a completed safety step that allowed it. */
  lemma CheckAdviceExactly(es: seq<Event>, t: Token)
    requires var s := Run(Init(), es); t in s.workers && s.workers[t].phase == Ready && s.workers[t].op == Advice
    requires var s := Run(Init(), es); s.workers[t].row.caseId in s.db.cases && !s.db.cases[s.workers[t].row.caseId].deleted
    ensures var s := Run(Init(), es);
            var w := s.workers[t];
            var s' := Apply(s, Work(t, CheckAdvice));
            var open := w.result.Some? && w.result.value.eligible && SafetyPassed(s.db, w.row.caseId) && SafePassed(s.db, w.row.caseId);
            s'.db == s.db && OnlyMoves(s, t, s', w.(phase := if open then Scored else Failing(ConsumedCode)))
  {
    var s := Run(Init(), es);
    var c := s.workers[t].row.caseId;
    RunKeepsInvariant(es);
    hide Run, Inv;
    if RecordedCount(s.db.steps, c) == 2 { CountOfTwoIsSound(s, c); }
    if SafetyPassed(s.db, c) && SafePassed(s.db, c) { BothGates(s, c); }
    hide RecordedCount, SafetyPassed, SafePassed;
  }

  /** The advisory is left as it is when there is nothing to advise, and noted when it is switched off. */
  lemma SkipExactly(es: seq<Event>, t: Token, off: bool)
    requires var s := Run(Init(), es); t in s.workers && s.workers[t].phase == Scored
    ensures var s := Run(Init(), es);
            var w := s.workers[t];
            var s' := Apply(s, Work(t, SkipAdvice(off)));
            && w.result.Some? && s'.db == s.db && t in s'.workers && OnlyMoves(s, t, s', s'.workers[t])
            && s'.workers[t] == w.(phase := Final, result := Some(
                 if !w.result.value.eligible || w.result.value.advisory == AdviceComplete then w.result.value
                 else w.result.value.(advisory := if off then Disabled else AttemptConsumed)))
  {
    RunKeepsInHand(es);
    assert ResultInHand(Run(Init(), es).workers[t]);
    hide Run;
  }

  // ---------- the sweep, the administrator and the owner ----------

  /** The lease, the deadline, the deletion or the cancellation leaves nobody to finish a started row. */
  ghost predicate Orphaned(db: Db, c: CaseId) {
    c in db.cases && var b := db.cases[c];
    b.state in {Cancelled, Deleted} || b.expiresAt <= db.now || (b.leaseUntil.Some? && b.leaseUntil.value < db.now)
  }

  /** The sweep turns exactly the orphaned started rows ambiguous. */
  lemma SweepExactly(es: seq<Event>)
    ensures var s := Run(Init(), es);
            var s' := Apply(s, SweepSteps);
            && s' == s.(db := s.db.(steps := s'.db.steps)) && |s'.db.steps| == |s.db.steps|
            && forall i: nat | i < |s.db.steps| ::
                 if s.db.steps[i].state == Started && Orphaned(s.db, s.db.steps[i].caseId)
                 then s'.db.steps[i] == s.db.steps[i].(state := Ambiguous) else s'.db.steps[i] == s.db.steps[i]
  {
    var s := Run(Init(), es);
    RunKeepsInvariant(es);
    assert forall c | c in s.db.cases :: LeaseShape(s.db.cases[c]);
    hide Run, Inv;
  }

  /** A closed case: state, revision and code as told, the lease gone, all else as it was. */
  predicate Closed(x: CaseRow, y: CaseRow, state: CaseState, revisions: nat, failure: Option<FailureCode>) {
    && y.state == state && y.revision == x.revision + revisions && y.failure == failure && y.leaseToken.None? && y.leaseUntil.None?
    && y.attempts == x.attempts && y.expiresAt == x.expiresAt && y.deleted == x.deleted && y.safety == x.safety && y.result == x.result
  }

  /** One table of cases becomes another, case by case: the chosen ones are closed, no other moves. */
  ghost predicate Closes(db: Db, db': Db, chosen: set<CaseId>, state: CaseState, revisions: nat, failure: Option<FailureCode>) {
    && db' == db.(cases := db'.cases) && db'.cases.Keys == db.cases.Keys
    && forall c | c in db.cases ::
         if c in chosen then Closed(db.cases[c], db'.cases[c], state, revisions, if failure.Some? then failure else db.cases[c].failure)
         else db'.cases[c] == db.cases[c]
  }

  ghost function OverdueCases(db: Db): set<CaseId> {
    set c | c in db.cases && db.cases[c].expiresAt <= db.now && db.cases[c].state in {Uploading, Queued, Analyzing, Paused}
  }

  ghost function SpentCases(db: Db): set<CaseId> {
    set c | c in db.cases && db.cases[c].attempts >= 3 && db.cases[c].state in {Queued, Analyzing}
      && (db.cases[c].leaseUntil.None? || db.cases[c].leaseUntil.value < db.now)
  }

  lemma ExpiryCloses(db: Db, mine: set<CaseId>)
    ensures Closes(db, SweepExpiredTx(db), OverdueCases(db), Expired, 1, Some(CaseDeadline))
    ensures Closes(db, ExpireOwnTx(db, mine), OverdueCases(db) * mine, Expired, 1, None)
  {
  }

  lemma ExhaustionCloses(db: Db)
    ensures Closes(db, SweepExhaustedTx(db), SpentCases(db), Failed, 0, Some(RetryExhausted))
  {
  }

  /** Overdue cases expire (by the sweep with its code, or by their owner's visit), and cases whose
      attempts are spent fail once their lease is over; no other case moves. */
  lemma ExpiryExactly(s: State, mine: set<CaseId>)
    ensures var s' := Apply(s, SweepExpired); s' == s.(db := s'.db) && Closes(s.db, s'.db, OverdueCases(s.db), Expired, 1, Some(CaseDeadline))
    ensures var s' := Apply(s, ExpireOwn(mine)); s' == s.(db := s'.db) && Closes(s.db, s'.db, OverdueCases(s.db) * mine, Expired, 1, None)
    ensures var s' := Apply(s, SweepExhausted); s' == s.(db := s'.db) && Closes(s.db, s'.db, SpentCases(s.db), Failed, 0, Some(RetryExhausted))
  {
    ExpiryCloses(s.db, mine);
    ExhaustionCloses(s.db);
    hide Closes, SweepExpiredTx, ExpireOwnTx, SweepExhaustedTx;
  }

  ghost predicate Unfinished(steps: seq<StepRow>, c: CaseId) {
    exists i: nat :: i < |steps| && steps[i].caseId == c && steps[i].state != Completed
  }

  /** Queued again with everything but state and failure code as it was. */
  ghost predicate QueuedAgain(db: Db, db': Db, c: CaseId)
    requires c in db.cases
  {
    db' == db.(cases := db.cases[c := db.cases[c].(state := Queued, failure := None)])
  }

  /** A case whose lease and deletion show in its state. */
  ghost predicate Shaped(db: Db, c: CaseId) { c in db.cases ==> LeaseShape(db.cases[c]) }

  lemma InvShaped(s: State, c: CaseId)
    requires Inv(s)
    ensures Shaped(s.db, c)
  {
  }

  ghost predicate Retriable(db: Db, c: CaseId) {
    && c in db.cases && db.cases[c].state in {Failed, Paused} && !Unfinished(db.steps, c)
    && db.cases[c].attempts < 3 && db.now < db.cases[c].expiresAt
  }

  lemma RetryTells(db: Db, c: CaseId, current: bool)
    requires Shaped(db, c)
    ensures var db' := AdminRetryTx(db, c, current).0; if current && Retriable(db, c) then QueuedAgain(db, db', c) else db' == db
  {
  }

  /** The administrator's retry goes through exactly for a failed or paused case with time and attempts
      left, all of whose rows are completed, and whose evidence is current; else nothing changes. */
  lemma RetryExactly(es: seq<Event>, c: CaseId, current: bool)
    ensures var s := Run(Init(), es);
            var s' := Apply(s, AdminRetry(c, current));
            s' == s.(db := s'.db) && if current && Retriable(s.db, c) then QueuedAgain(s.db, s'.db, c) else s'.db == s.db
  {
    RunKeepsInvariant(es);
    InvShaped(Run(Init(), es), c);
    hide Run, Inv, Shaped, AdminRetryTx, Retriable, QueuedAgain;
    RetryTells(Run(Init(), es).db, c, current);
  }

  ghost predicate Advisable(db: Db, c: CaseId) {
    && c in db.cases && db.cases[c].state == Complete && db.cases[c].result.Some? && db.cases[c].result.value.eligible
    && !HasRow(db.steps, c, AdviceStep) && db.cases[c].attempts < 3 && db.now < db.cases[c].expiresAt
  }

  lemma AdviceTells(db: Db, c: CaseId, current: bool)
    requires Shaped(db, c)
    ensures var db' := AdminAdviceTx(db, c, current).0; if current && Advisable(db, c) then QueuedAgain(db, db', c) else db' == db
  {
    LastHasRow(db.steps, c, AdviceStep);
    RowHasLast(db.steps, c, AdviceStep);
    hide LastStep, HasRow;
  }

  /** Advice is requested exactly for a complete case with an eligible result and no advice row yet. */
  lemma AdviceExactly(es: seq<Event>, c: CaseId, current: bool)
    ensures var s := Run(Init(), es);
            var s' := Apply(s, AdminAdvice(c, current));
            s' == s.(db := s'.db) && if current && Advisable(s.db, c) then QueuedAgain(s.db, s'.db, c) else s'.db == s.db
  {
    RunKeepsInvariant(es);
    InvShaped(Run(Init(), es), c);
    hide Run, Inv, Shaped, AdminAdviceTx, Advisable, QueuedAgain;
    AdviceTells(Run(Init(), es).db, c, current);
  }

  lemma RowHasLast(steps: seq<StepRow>, c: CaseId, name: StepName)
    ensures HasRow(steps, c, name) ==> LastStep(steps, c, name).Some?
  {
  }

  lemma UploadTells(db: Db, c: CaseId)
    requires Shaped(db, c)
    ensures Opens(db, CreateTx(db, c), c) && Queues(db, FinaliseTx(db, c), c)
  {
  }

  lemma CancelTells(db: Db, c: CaseId)
    requires Shaped(db, c)
    ensures Closes(db, CancelTx(db, c), if c in db.cases && db.cases[c].state != Deleted then {c} else {}, Cancelled, 1, None)
  {
  }

  /** The row is marked deleted under a new revision, and the case's result, safety and every journalled
      output are erased; nothing else moves. */
  ghost predicate Erases(db: Db, db': Db, c: CaseId)
    requires c in db.cases
  {
    && db'.now == db.now && |db'.steps| == |db.steps|
    && db'.cases == db.cases[c := db.cases[c].(state := Deleted, deleted := true, revision := db.cases[c].revision + 1,
                                               result := None, safety := None, leaseToken := None, leaseUntil := None)]
    && forall i: nat | i < |db.steps| :: db'.steps[i] == if db.steps[i].caseId == c then db.steps[i].(output := None) else db.steps[i]
  }

  lemma TombstoneTells(db: Db, c: CaseId)
    requires Shaped(db, c)
    ensures var db' := TombstoneTx(db, c); if c in db.cases && db.cases[c].state != Deleted then Erases(db, db', c) else db' == db
  {
  }

  /** An unknown case is opened for a quarter of an hour; a known one is left alone. */
  ghost predicate Opens(db: Db, db': Db, c: CaseId) {
    if c in db.cases then db' == db
    else db' == db.(cases := db.cases[c := CaseRow(1, Uploading, None, None, 0, db.now + 900, false, None, None, None)])
  }

  /** An uploading case is queued if it still has time. */
  ghost predicate Queues(db: Db, db': Db, c: CaseId) {
    if c in db.cases && db.cases[c].state == Uploading && db.now < db.cases[c].expiresAt
    then db' == db.(cases := db.cases[c := db.cases[c].(state := Queued)]) else db' == db
  }

  lemma UploadExactly(es: seq<Event>, c: CaseId)
    ensures var s := Run(Init(), es);
            var s1, s2 := Apply(s, Create(c)), Apply(s, Finalise(c));
            s1 == s.(db := s1.db) && s2 == s.(db := s2.db) && Opens(s.db, s1.db, c) && Queues(s.db, s2.db, c)
  {
    var s := Run(Init(), es);
    RunKeepsInvariant(es);
    InvShaped(s, c);
    hide Run, Inv, Shaped, CreateTx, FinaliseTx, Opens, Queues;
    UploadTells(s.db, c);
  }

  lemma ClosureShape(s: State, c: CaseId)
    ensures Apply(s, Cancel(c)) == s.(db := CancelTx(s.db, c)) && Apply(s, Tombstone(c)) == s.(db := TombstoneTx(s.db, c))
  {
    hide CancelTx, TombstoneTx;
  }

  /** Cancelling and deleting, which nothing but an earlier deletion prevents, close the case under a new
      revision; deleting also erases what the case and its rows hold. */
  lemma ClosureExactly(es: seq<Event>, c: CaseId)
    ensures var s := Run(Init(), es);
            var s1, s2 := Apply(s, Cancel(c)), Apply(s, Tombstone(c));
            && s1 == s.(db := s1.db) && s2 == s.(db := s2.db)
            && Closes(s.db, s1.db, if c in s.db.cases && s.db.cases[c].state != Deleted then {c} else {}, Cancelled, 1, None)
            && if c in s.db.cases && s.db.cases[c].state != Deleted then Erases(s.db, s2.db, c) else s2.db == s.db
  {
    var s := Run(Init(), es);
    RunKeepsInvariant(es);
    InvShaped(s, c);
    hide Run, Inv, Shaped, CancelTx, TombstoneTx, Closes, Erases, Apply;
    ClosureShape(s, c);
    CancelTells(s.db, c);
    TombstoneTells(s.db, c);
  }

  // ---------- runs ----------

  /** Screened by a worker that then dies; five minutes later the event comes again. */
  function Redelivered(key: nat): seq<Event> {
    CLAIMING + Paid(SafetyStep) + [Work(7, Crash), Tick(301)] + [Claim(0, 1, 8, Analysis), Work(8, Begin(SafetyStep, key))]
  }

  const SECOND := Claimed(0, 1, 8, 601, None)

  /** Two workers, the second one holding the lease. */
  function AgainState(phase: Phase): State {
    State(Db(301, map[0 := CaseRow(1, Analyzing, Some(8), Some(601), 2, 900, false, None, None, None)], [Journalled(SafetyStep)]),
          map[7 := Worker(HELD, Analysis, None, Gone), 8 := Worker(SECOND, Analysis, None, phase)], multiset{0, 0}, multiset{(0, SafetyStep)})
  }

  lemma CrashedState()
    ensures Apply(Apply(At(0, Leased(None), [Journalled(SafetyStep)], Worker(HELD, Analysis, None, HasSafety(Allow)), multiset{(0, SafetyStep)}),
                        Work(7, Crash)), Tick(301))
            == At(301, Leased(None), [Journalled(SafetyStep)], Worker(HELD, Analysis, None, Gone), multiset{(0, SafetyStep)})
  {
  }

  lemma ClaimedAgain()
    ensures Apply(At(301, Leased(None), [Journalled(SafetyStep)], Worker(HELD, Analysis, None, Gone), multiset{(0, SafetyStep)}),
                  Claim(0, 1, 8, Analysis)) == AgainState(Ready)
  {
    var db := Db(301, map[0 := Leased(None)], [Journalled(SafetyStep)]);
    assert !Busy(db) && Claimable(db, 0, 1);
    assert multiset{0} + multiset{0} == multiset{0, 0};
  }

  lemma BegunAgain(key: nat)
    ensures Apply(AgainState(Ready), Work(8, Begin(SafetyStep, key))) == AgainState(if key == 5 then HasSafety(Allow) else Failing(ConsumedCode))
  {
    var s := AgainState(Ready);
    assert Fence(s.db, SECOND);
    assert LastStep(s.db.steps, 0, SafetyStep) == Some(0);
  }

  /** The second worker gets the first one's output under the same key, without another call; under any
      other key its attempt counts as consumed. */
  lemma RedeliveredRun(key: nat)
    ensures Run(Init(), Redelivered(key)) == AgainState(if key == 5 then HasSafety(Allow) else Failing(ConsumedCode))
  {
    var one := [Journalled(SafetyStep)];
    var s := At(0, Leased(None), one, Worker(HELD, Analysis, None, HasSafety(Allow)), multiset{(0, SafetyStep)});
    var start := CLAIMING + Paid(SafetyStep);
    assert [] + one == one && multiset{} + multiset{(0, SafetyStep)} == multiset{(0, SafetyStep)};
    hide Apply, Run, At, Leased, Paid, AgainState;
    ClaimedRun();
    PaidRun(None, [], Worker(HELD, Analysis, None, Ready), multiset{}, SafetyStep);
    RunConcat(Init(), CLAIMING, Paid(SafetyStep));
    RunConcat(Init(), start, [Work(7, Crash), Tick(301)]);
    RunConcat(Init(), start + [Work(7, Crash), Tick(301)], [Claim(0, 1, 8, Analysis), Work(8, Begin(SafetyStep, key))]);
    RunTwo(s, Work(7, Crash), Tick(301));
    CrashedState();
    var t := At(301, Leased(None), one, Worker(HELD, Analysis, None, Gone), multiset{(0, SafetyStep)});
    RunTwo(t, Claim(0, 1, 8, Analysis), Work(8, Begin(SafetyStep, key)));
    ClaimedAgain();
    BegunAgain(key);
  }

  const ADVISED := Result(StatusComplete, true, AdviceComplete)

  function Advised(): seq<Event> { [Work(7, SaveCompiled)] + [Work(7, Begin(AdviceStep, 9)), Work(7, Execute), Work(7, Finish(PASS, true))] + [Work(7, SaveFinal)] }

  /** The state with the result stored on the leased case. */
  function StoredState(steps: seq<StepRow>, w: Worker, calls: multiset<(CaseId, StepName)>): State {
    At(0, Leased(Some(Allow)).(result := Some(COMPILED)), steps, w, calls)
  }

  lemma SavesInTime()
    ensures Apply(InHand(0, Compiled), Work(7, SaveCompiled))
            == StoredState([Journalled(SafetyStep), Journalled(SafeStep)], Worker(HELD, Analysis, Some(COMPILED), Scored),
                           multiset{(0, SafetyStep)} + multiset{(0, SafeStep)})
  {
    assert Fence(InHand(0, Compiled).db, HELD);
  }

  /** The advice step from its beginning to its output. */
  lemma AdviceRuns(steps: seq<StepRow>, calls: multiset<(CaseId, StepName)>)
    requires LastStep(steps, 0, AdviceStep).None?
    ensures var row := StepRow(0, 1, AdviceStep, Completed, 9, Some(PASS));
            Apply(Apply(Apply(StoredState(steps, Worker(HELD, Analysis, Some(COMPILED), Scored), calls),
                              Work(7, Begin(AdviceStep, 9))), Work(7, Execute)), Work(7, Finish(PASS, true)))
            == StoredState(steps + [row], Worker(HELD, Analysis, Some(ADVISED), Final), calls + multiset{(0, AdviceStep)})
  {
    hide LastStep;
    var started := steps + [StepRow(0, 1, AdviceStep, Started, 9, None)];
    var w := Worker(HELD, Analysis, Some(COMPILED), Scored);
    assert Fence(StoredState(steps, w, calls).db, HELD);
    var s1 := StoredState(started, w.(phase := InStep(AdviceStep, |steps|, false)), calls);
    assert Apply(StoredState(steps, w, calls), Work(7, Begin(AdviceStep, 9))) == s1;
    var s2 := StoredState(started, w.(phase := InStep(AdviceStep, |steps|, true)), calls + multiset{(0, AdviceStep)});
    assert Apply(s1, Work(7, Execute)) == s2;
    assert Fence(s2.db, HELD);
    assert started[|steps| := StepRow(0, 1, AdviceStep, Completed, 9, Some(PASS))] == steps + [StepRow(0, 1, AdviceStep, Completed, 9, Some(PASS))];
  }

  lemma SavesLast(steps: seq<StepRow>, calls: multiset<(CaseId, StepName)>)
    ensures var s := Apply(StoredState(steps, Worker(HELD, Analysis, Some(ADVISED), Final), calls), Work(7, SaveFinal));
            && s.db.cases == map[0 := CaseRow(1, Complete, None, None, 1, 900, false, Some(Allow), Some(ADVISED), None)]
            && s.db.steps == steps && s.calls == calls && s.workers == map[7 := Worker(HELD, Analysis, Some(ADVISED), Gone)]
  {
    assert Fence(StoredState(steps, Worker(HELD, Analysis, Some(ADVISED), Final), calls).db, HELD);
  }

  /** One undisturbed run: screened, analysed, advised and complete, with three completed rows and one call
      each, in the order of the steps. */
  lemma CompleteRun()
    ensures var s := Run(Init(), Analysed() + Advised());
            && s.db.cases == map[0 := CaseRow(1, Complete, None, None, 1, 900, false, Some(Allow), Some(ADVISED), None)]
            && s.db.steps == [Journalled(SafetyStep), Journalled(SafeStep), StepRow(0, 1, AdviceStep, Completed, 9, Some(PASS))]
            && s.calls == multiset{(0, SafetyStep), (0, SafeStep), (0, AdviceStep)}
  {
    var two := [Journalled(SafetyStep), Journalled(SafeStep)];
    var row := StepRow(0, 1, AdviceStep, Completed, 9, Some(PASS));
    var calls := multiset{(0, SafetyStep)} + multiset{(0, SafeStep)};
    assert two + [row] == [Journalled(SafetyStep), Journalled(SafeStep), row];
    assert calls + multiset{(0, AdviceStep)} == multiset{(0, SafetyStep), (0, SafeStep), (0, AdviceStep)};
    NoAdviceYet();
    AnalysedRun();
    hide Apply, Run, At, Leased, StoredState, InHand, LastStep, Analysed;
    var paid := [Work(7, Begin(AdviceStep, 9)), Work(7, Execute), Work(7, Finish(PASS, true))];
    var s0 := InHand(0, Compiled);
    RunConcat(Init(), Analysed(), Advised());
    RunConcat(s0, [Work(7, SaveCompiled)] + paid, [Work(7, SaveFinal)]);
    RunConcat(s0, [Work(7, SaveCompiled)], paid);
    RunTwo(s0, Work(7, SaveCompiled), Work(7, SaveFinal));
    SavesInTime();
    var s1 := Apply(s0, Work(7, SaveCompiled));
    RunThree(s1, paid[0], paid[1], paid[2]);
    AdviceRuns(two, calls);
    var s2 := StoredState(two + [row], Worker(HELD, Analysis, Some(ADVISED), Final), calls + multiset{(0, AdviceStep)});
    RunTwo(s2, Work(7, SaveFinal), Work(7, SaveFinal));
    SavesLast(two + [row], calls + multiset{(0, AdviceStep)});
  }

  lemma NoAdviceYet()
    ensures LastStep([Journalled(SafetyStep), Journalled(SafeStep)], 0, AdviceStep).None?
  {
    var two := [Journalled(SafetyStep), Journalled(SafeStep)];
    assert two[..1] == [Journalled(SafetyStep)] && two[..1][..0] == [];
  }
}
