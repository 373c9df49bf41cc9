/** `processBetaEvent` as it is written: one worker's program over the shared store, with everybody
    else's transactions in between its own. Whatever it meets, it is a run of the protocol. */
module BetaWorker {
  import opened Options
  import opened BetaTables
  import opened BetaProtocol
  import opened BetaInvariant
  import opened BetaPreservation
  import opened BetaTheorems
  import opened BetaSettlement
  import opened BetaDatabase
  import opened BetaAnswers

  /** What the program meets. At its n-th await: what others commit meanwhile, what the checks of
      configuration and budget or the query itself throw, and whether a write is lost (its acknowledgement
      only, or the whole write). Then the answers of
      the providers (none when the call throws), the compiled result and the configuration's verdicts:
      what is disabled, and whether the stored result is of an older runtime. */
  datatype World = World(
    others: nat -> seq<Event>, throws: nat -> Option<FailureCode>, lost: nat -> bool,
    key: nat, packetKey: nat,
    safety: Option<Output>, safe: Option<Output>, advice: Option<Output>, compiled: Result,
    disabled: Option<FailureCode>, outdated: bool, adviserOff: bool)

  /** Others never act in this worker's name, and tokens are fresh. */
  ghost predicate Foreign(es: seq<Event>, t: Token) {
    forall e | e in es :: (e.Work? ==> e.worker != t) && (e.Claim? ==> e.token != t)
  }

  /** The worker's case does not carry its token any more, or its time is up. */
  ghost predicate LeftFree(s: State, t: Token)
    requires t in s.workers
  {
    var c := s.workers[t].row.caseId;
    c in s.db.cases && s.db.cases[c].leaseToken == Some(t) ==> TimeUp(s, t)
  }

  /** A step ends with its output in hand or in the catch handler; advice always has its say. */
  ghost predicate StepOver(w: Worker, name: StepName, w': Worker) {
    && w'.row == w.row && w'.op == w.op
    && match name
       case SafetyStep => w'.result == w.result && (w'.phase.HasSafety? || w'.phase.Failing?)
       case SafeStep => w'.result == w.result && (w'.phase == HasSafe || w'.phase.Failing?)
       case AdviceStep => w'.phase == Final && w'.result.Some? == w.result.Some?
  }

  // ---------- others in between ----------

  lemma ForeignStep(s: State, e: Event, t: Token)
    requires Foreign([e], t)
    ensures t in Apply(s, e).workers <==> t in s.workers
    ensures t in s.workers ==> Apply(s, e).workers[t] == s.workers[t]
  {
    assert e in [e];
    if e.Work? {
      if e.worker in s.workers {
        ClaimsAreKept(s, e.worker, e.action);
        if t in s.workers { OthersUntouched(s, e.worker, e.action, t); }
      }
      hide ApplyWorker;
    } else if t in s.workers {
      WorkersStay(s, e, t);
    }
    hide Busy, Claimable, ApplyWorker;
  }

  lemma {:induction false} ForeignRun(s: State, es: seq<Event>, t: Token)
    requires Inv(s) && Foreign(es, t)
    ensures Inv(Run(s, es)) && Evolves(s.db, Run(s, es).db)
    ensures t in Run(s, es).workers <==> t in s.workers
    ensures t in s.workers ==> Run(s, es).workers[t] == s.workers[t]
  {
    hide Inv, Apply, Evolves;
    RunEvolves(s, es);
    if |es| > 0 {
      var init := es[..|es| - 1];
      ForeignRun(s, init, t);
      StepKeeps(Run(s, init), es[|es| - 1]);
      ForeignStep(Run(s, init), es[|es| - 1], t);
    }
  }

  /** A reused output can still be reused later, as long as the fence holds. */
  lemma ReuseStable(a: Db, b: Db, w: Claimed, name: StepName, key: nat)
    requires BeginTx(a, w, name, key).1.Reused? && Evolves(a, b) && Fence(b, w) && Unique(b.steps)
    ensures BeginTx(b, w, name, key) == (b, BeginTx(a, w, name, key).1)
  {
    var i := LastStep(a.steps, w.caseId, name).value;
    assert StepEvolves(a, b, i);
    var j := LastStep(b.steps, w.caseId, name);
    assert j.Some?;
    assert j.value == i;
  }

  lemma RunSnoc(s: State, es: seq<Event>, e: Event)
    ensures Run(s, es + [e]) == Apply(Run(s, es), e)
  {
    assert (es + [e])[..|es|] == es;
  }

  // ---------- how a program ends ----------

  /** The failure write takes the token off, unless somebody else did. */
  lemma FailureFrees(s: State, t: Token)
    requires Inv(s) && t in s.workers && s.workers[t].phase.Failing?
    ensures var s' := ApplyWorker(s, t, SettleFailure); t in s'.workers && LeftFree(s', t)
  {
    var c := s.workers[t].row.caseId;
    assert WorkerRowOk(s, t);
    assert LeaseShape(s.db.cases[c]) && TokenOwned(s, c);
    hide Inv, WorkerRowOk;
  }

  /** So do the writes that end a program under the fence; refused, they mean that the time is up. */
  lemma FencedEndFrees(s: State, t: Token, action: Action)
    requires Inv(s) && t in s.workers
    requires (action == SettleSafety && s.workers[t].phase.SafetySaved? && s.workers[t].phase.verdict != Allow)
             || (action.SettleDisabled? && action.disabledCode in {BlockedRights, BlockedRuntime} && s.workers[t].phase == SafetySaved(Allow))
    ensures var s' := ApplyWorker(s, t, action); t in s'.workers && LeftFree(s', t)
  {
    var row := s.workers[t].row;
    assert WorkerRowOk(s, t);
    if !Fence(s.db, row) && s.db.cases[row.caseId].leaseToken == Some(t) { RefusedMeansLate(s, t); }
    hide Inv, WorkerRowOk;
  }

  lemma FinalSaveFrees(s: State, t: Token)
    requires Inv(s) && t in s.workers && s.workers[t].phase == Final && s.workers[t].result.Some?
    ensures var s' := ApplyWorker(s, t, SaveFinal);
            t in s'.workers && (s'.workers[t].phase == Gone ==> LeftFree(s', t))
  {
    assert WorkerRowOk(s, t);
    hide Inv, WorkerRowOk;
  }

  // ---------- a program that is left alone ----------

  /** Nobody else commits, no check or query throws and no write is lost; the providers answer as they like. */
  ghost predicate Quiet(world: World) {
    && (forall n: nat :: world.others(n) == [] && world.throws(n).None? && !world.lost(n))
    && (world.disabled.Some? ==> world.disabled.value in {BlockedRights, BlockedRuntime})
  }

  function RowSet(db: Db, c: CaseId, row: CaseRow): Db { db.(cases := db.cases[c := row]) }

  /** A step's one row, completed with the provider's answer, or ambiguous without one. */
  function Journal(w: Claimed, name: StepName, key: nat, answer: Option<Output>): StepRow {
    StepRow(w.caseId, w.revision, name, if answer.Some? then Completed else Ambiguous, key, answer)
  }

  function Journalling(db: Db, w: Claimed, name: StepName, key: nat, answer: Option<Output>): Db {
    db.(steps := db.steps + [Journal(w, name, key, answer)])
  }

  function Stepped(w: Worker, name: StepName, answer: Option<Output>): Worker {
    if answer.Some? then AfterStep(w, name, answer.value) else AfterFailedStep(w, name, ConsumedCode)
  }

  function Freed(row: CaseRow, state: CaseState): CaseRow { row.(state := state, leaseToken := None, leaseUntil := None) }

  /** From the safety verdict to a stored result, or to the end of the case. */
  function Screened(db: Db, w: Worker, v: Verdict, world: World): (Db, Worker) {
    var c := w.row.caseId;
    if c !in db.cases then (db, w) else
    var x := db.cases[c].(safety := Some(v));
    if v != Allow then (RowSet(db, c, Freed(x, if v == Block then SafetyBlocked else SafetyReview)), w.(phase := Gone))
    else if world.disabled.Some? then (RowSet(db, c, Freed(x, Paused).(failure := world.disabled)), w.(phase := Gone))
    else
      var d := Journalling(RowSet(db, c, x), w.row, SafeStep, world.key, world.safe);
      if world.safe.None? then (d, w.(phase := Failing(ConsumedCode)))
      else (RowSet(d, c, x.(result := Some(world.compiled))), w.(result := Some(world.compiled), phase := Scored))
  }

  function WithAdvice(r: Result, world: World): Result {
    if !r.eligible || r.advisory == AdviceComplete then r
    else r.(advisory := if world.adviserOff then Disabled else if world.advice.Some? then AdviceComplete else AttemptConsumed)
  }

  /** From a stored result over the advisory to the final save. */
  function Concluded(db: Db, w: Worker, world: World): Db {
    if w.row.caseId !in db.cases || w.result.None? then db else
    var r := w.result.value;
    var d := if !r.eligible || r.advisory == AdviceComplete || world.adviserOff then db
             else Journalling(db, w.row, AdviceStep, world.packetKey, world.advice);
    RowSet(d, w.row.caseId, Freed(db.cases[w.row.caseId], ResultState(WithAdvice(r, world))).(result := Some(WithAdvice(r, world))))
  }

  lemma WritesWhenFenced(db: Db, w: Claimed, v: Verdict, code: FailureCode, r: Result)
    requires Fence(db, w)
    ensures w.caseId in db.cases
    ensures var x := db.cases[w.caseId];
            && SaveSafetyTx(db, w, v).0 == RowSet(db, w.caseId, x.(safety := Some(v)))
            && SettleSafetyTx(db, w, v).0 == RowSet(db, w.caseId, Freed(x, if v == Block then SafetyBlocked else SafetyReview))
            && SettleDisabledTx(db, w, code).0 == RowSet(db, w.caseId, Freed(x, Paused).(failure := Some(code)))
            && SaveResultTx(db, w, r, false) == (RowSet(db, w.caseId, x.(result := Some(r))), true)
            && SaveResultTx(db, w, r, true) == (RowSet(db, w.caseId, Freed(x, ResultState(r)).(result := Some(r))), true)
  {
  }

  lemma NoRowAdded(steps: seq<StepRow>, row: StepRow, c: CaseId, name: StepName)
    requires !HasRow(steps, c, name) && row.name != name
    ensures !HasRow(steps + [row], c, name)
  {
    forall i: nat ensures !RowFor(steps + [row], i, c, name) {
      assert !RowFor(steps, i, c, name);
    }
  }

  lemma BeginsFresh(db: Db, w: Claimed, name: StepName, key: nat)
    requires Fence(db, w) && !HasRow(db.steps, w.caseId, name)
    ensures BeginTx(db, w, name, key) == (db.(steps := db.steps + [StepRow(w.caseId, w.revision, name, Started, key, None)]), Inserted(|db.steps|))
  {
    LastHasRow(db.steps, w.caseId, name);
    hide LastStep, HasRow;
  }

  lemma CompletesWhenFenced(db: Db, w: Claimed, id: nat, output: Output)
    ensures CompleteTx(db, w, id, output).1 == Fence(db, w)
  {
  }

  /** A row just inserted takes the answer, or becomes ambiguous. */
  lemma ClosesNewRow(db: Db, w: Claimed, name: StepName, key: nat, answer: Option<Output>)
    requires Fence(db, w)
    ensures var d := db.(steps := db.steps + [StepRow(w.caseId, w.revision, name, Started, key, None)]);
            && Fence(d, w)
            && Journalling(db, w, name, key, answer) ==
                 if answer.Some? then CompleteTx(d, w, |db.steps|, answer.value).0 else AbandonTx(d, |db.steps|)
  {
    var d := db.(steps := db.steps + [StepRow(w.caseId, w.revision, name, Started, key, None)]);
    var row := Journal(w, name, key, answer);
    assert Fence(d, w);
    assert d.steps[|db.steps| := row] == db.steps + [row];
  }

  lemma FinishApplies(s: State, t: Token, o: Output, acknowledged: bool)
    requires t in s.workers && s.workers[t].phase.InStep? && s.workers[t].phase.called
    ensures var w := s.workers[t];
            var (db, ok) := CompleteTx(s.db, w.row, w.phase.id, o);
            ApplyWorker(s, t, Finish(o, acknowledged)) == s.(db := db, workers := s.workers[t :=
              if ok && acknowledged then AfterStep(w, w.phase.name, o) else w.(phase := Abandoning(w.phase.name, w.phase.id))])
  {
    hide CompleteTx, AfterStep;
  }

  lemma SaveApplies(s: State, t: Token, terminal: bool)
    requires t in s.workers && s.workers[t].phase == (if terminal then Final else Compiled) && s.workers[t].result.Some?
    ensures var (db, ok) := SaveResultTx(s.db, s.workers[t].row, s.workers[t].result.value, terminal);
            ApplyWorker(s, t, if terminal then SaveFinal else SaveCompiled)
            == s.(db := db, workers := s.workers[t := s.workers[t].(phase := if !ok then Failing(Stale) else if terminal then Gone else Scored)])
  {
    hide SaveResultTx;
  }

  lemma SettleApplies(s: State, t: Token, code: FailureCode)
    requires t in s.workers && s.workers[t].phase.SafetySaved?
    ensures var w := s.workers[t];
            && (w.phase.verdict != Allow ==>
                  ApplyWorker(s, t, SettleSafety) == s.(db := SettleSafetyTx(s.db, w.row, w.phase.verdict).0, workers := s.workers[t := w.(phase := Gone)]))
            && (w.phase.verdict == Allow && code in {BlockedRights, BlockedRuntime} ==>
                  ApplyWorker(s, t, SettleDisabled(code)) == s.(db := SettleDisabledTx(s.db, w.row, code).0, workers := s.workers[t := w.(phase := Gone)]))
  {
    hide SettleSafetyTx, SettleDisabledTx;
  }

  lemma SafetyApplies(s: State, t: Token)
    requires t in s.workers && s.workers[t].phase.HasSafety?
    ensures var w := s.workers[t];
            ApplyWorker(s, t, SaveSafety) == s.(db := SaveSafetyTx(s.db, w.row, w.phase.verdict).0,
                                                workers := s.workers[t := w.(phase := SafetySaved(w.phase.verdict))])
  {
    hide SaveSafetyTx;
  }

  lemma ClaimApplies(s: State, c: CaseId, revision: nat, token: Token, op: Operation)
    requires token !in s.workers
    ensures var (db, claimed) := ClaimTx(s.db, c, revision, token);
            && (claimed.None? ==> db == s.db)
            && (claimed.Some? ==>
                  var s' := Apply(s, Claim(c, revision, token, op));
                  s'.db == db && s'.workers == s.workers[token := Worker(claimed.value, op, claimed.value.result, Ready)])
  {
    hide Busy;
  }

  lemma ReuseWritesNothing(db: Db, w: Claimed, name: StepName, key: nat)
    ensures BeginTx(db, w, name, key).1.Reused? ==> BeginTx(db, w, name, key).0 == db
  {
    hide LastStep;
  }

  lemma BeginApplies(s: State, t: Token, name: StepName, key: nat)
    requires t in s.workers && MayBegin(s.workers[t], name)
    ensures var w := s.workers[t];
            var (db, begun) := BeginTx(s.db, w.row, name, key);
            ApplyWorker(s, t, Begin(name, key)) == s.(db := db, workers := s.workers[t :=
              match begun
              case Inserted(id) => w.(phase := InStep(name, id, false))
              case Reused(output) => AfterStep(w, name, output)
              case StaleLease => AfterFailedStep(w, name, Stale)
              case Consumed => AfterFailedStep(w, name, ConsumedCode)])
  {
    hide BeginTx, AfterStep, AfterFailedStep, MayBegin;
  }

  ghost predicate NoRows(steps: seq<StepRow>, c: CaseId) { forall i: nat | i < |steps| :: steps[i].caseId != c }

  lemma NoRowsNone(steps: seq<StepRow>, c: CaseId, name: StepName)
    requires NoRows(steps, c)
    ensures !HasRow(steps, c, name)
  {
  }

  function Screening(db: Db, w: Worker, world: World): (Db, Worker) {
    var d := Journalling(db, w.row, SafetyStep, world.key, world.safety);
    if world.safety.None? then (d, w.(phase := Failing(ConsumedCode)))
    else Screened(d, w.(phase := HasSafety(world.safety.value.verdict)), world.safety.value.verdict, world)
  }

  /** The whole try block of an analysis. */
  function Tried(db: Db, w: Worker, world: World): (Db, Worker) {
    var (d, w') := Screening(db, w, world);
    if w'.phase == Scored then (Concluded(d, w', world), w'.(phase := Gone)) else (d, w')
  }

  lemma FenceJournalled(db: Db, w: Claimed, name: StepName, key: nat, answer: Option<Output>)
    requires Fence(db, w)
    ensures Fence(Journalling(db, w, name, key, answer), w)
  {
  }

  /** The screening from the saved verdict on, transaction by transaction. */
  function ScreenedOn(d: Db, w: Worker, v: Verdict, world: World): (Db, Worker) {
    if v != Allow then (SettleSafetyTx(d, w.row, v).0, w.(phase := Gone))
    else if world.disabled.Some? then (SettleDisabledTx(d, w.row, world.disabled.value).0, w.(phase := Gone))
    else Computed(d, w, world)
  }

  function Computed(d: Db, w: Worker, world: World): (Db, Worker) {
    var e := Journalling(d, w.row, SafeStep, world.key, world.safe);
    if world.safe.None? then (e, w.(phase := Failing(ConsumedCode)))
    else (SaveResultTx(e, w.row, world.compiled, false).0, w.(result := Some(world.compiled), phase := Scored))
  }

  lemma ComputedIs(d: Db, w: Worker, world: World)
    ensures var e, w1 := Journalling(d, w.row, SafeStep, world.key, world.safe), Stepped(w, SafeStep, world.safe);
            && (world.safe.None? ==> w1.phase != HasSafe && Computed(d, w, world) == (e, w1))
            && (world.safe.Some? ==>
                  && w1 == w.(phase := HasSafe)
                  && Computed(d, w, world) == (SaveResultTx(e, w.row, world.compiled, false).0, w1.(result := Some(world.compiled), phase := Scored)))
  {
    hide SaveResultTx, Journalling;
  }

  lemma ScreenedSteps(db: Db, w: Worker, v: Verdict, world: World)
    requires Fence(db, w.row) && w.result.None? && (world.disabled.Some? ==> world.disabled.value in {BlockedRights, BlockedRuntime})
    ensures var d := SaveSafetyTx(db, w.row, v).0;
            && Fence(d, w.row) && d.steps == db.steps
            && Screened(db, w, v, world) == ScreenedOn(d, w.(phase := SafetySaved(v)), v, world)
            && (Screened(db, w, v, world).1.phase == Scored && w.phase.HasSafety? ==> Fence(Screened(db, w, v, world).0, w.row))
  {
    var c := w.row.caseId;
    var x := db.cases[c].(safety := Some(v));
    var d := RowSet(db, c, x);
    WritesWhenFenced(db, w.row, v, Stale, world.compiled);
    assert Fence(d, w.row) && d.cases[c] == x;
    WritesWhenFenced(d, w.row, v, if world.disabled.Some? then world.disabled.value else Stale, world.compiled);
    var e := Journalling(d, w.row, SafeStep, world.key, world.safe);
    assert Fence(e, w.row) && e.cases[c] == x;
    WritesWhenFenced(e, w.row, v, Stale, world.compiled);
    RowSetTwice(db, c, x, Freed(x, if v == Block then SafetyBlocked else SafetyReview));
    RowSetTwice(db, c, x, Freed(x, Paused).(failure := world.disabled));
    hide SaveSafetyTx, SettleSafetyTx, SettleDisabledTx, SaveResultTx;
  }

  lemma RowSetTwice(db: Db, c: CaseId, x: CaseRow, y: CaseRow)
    ensures RowSet(RowSet(db, c, x), c, y) == RowSet(db, c, y)
  {
    assert db.cases[c := x][c := y] == db.cases[c := y];
  }

  lemma SavesWhenFenced(db: Db, w: Claimed, r: Result, terminal: bool)
    ensures SaveResultTx(db, w, r, terminal).1 == Fence(db, w)
  {
  }

  /** The end, transaction by transaction. */
  lemma ConcludedSteps(db: Db, w: Worker, world: World)
    requires Fence(db, w.row) && w.result.Some?
    ensures var r := w.result.value;
            var d := if !r.eligible || r.advisory == AdviceComplete || world.adviserOff then db
                     else Journalling(db, w.row, AdviceStep, world.packetKey, world.advice);
            Fence(d, w.row) && Concluded(db, w, world) == SaveResultTx(d, w.row, WithAdvice(r, world), true).0
  {
    var r := w.result.value;
    var d := if !r.eligible || r.advisory == AdviceComplete || world.adviserOff then db
             else Journalling(db, w.row, AdviceStep, world.packetKey, world.advice);
    assert Fence(d, w.row) && d.cases == db.cases;
    WritesWhenFenced(d, w.row, Allow, Stale, WithAdvice(r, world));
    hide SaveSafetyTx, SettleSafetyTx, SettleDisabledTx, SaveResultTx;
  }

  lemma ScreeningIs(db: Db, w: Worker, world: World)
    ensures var d, w1 := Journalling(db, w.row, SafetyStep, world.key, world.safety), Stepped(w, SafetyStep, world.safety);
            && w1.row == w.row && w1.result == w.result
            && (w1.phase.HasSafety? <==> world.safety.Some?)
            && (world.safety.None? ==> w1.phase != Scored && Screening(db, w, world) == (d, w1))
            && (world.safety.Some? ==> Screening(db, w, world) == Screened(d, w1, w1.phase.verdict, world))
  {
    hide Screened, Journalling;
  }

  lemma TriedIs(db: Db, w: Worker, world: World)
    ensures var (d, w') := Screening(db, w, world);
            Tried(db, w, world) == if w'.phase == Scored then (Concluded(d, w', world), w'.(phase := Gone)) else (d, w')
  {
    hide Screening, Concluded;
  }

  lemma TriedSteps(db: Db, w: Worker, world: World)
    requires Fence(db, w.row) && NoRows(db.steps, w.row.caseId) && w.result.None?
    ensures var c := w.row.caseId;
            var d := Journalling(db, w.row, SafetyStep, world.key, world.safety);
            && !HasRow(db.steps, c, SafetyStep) && Fence(d, w.row) && !HasRow(d.steps, c, SafeStep)
            && !HasRow(Screening(db, w, world).0.steps, c, AdviceStep)
  {
    var c := w.row.caseId;
    var safety := Journal(w.row, SafetyStep, world.key, world.safety);
    var safe := Journal(w.row, SafeStep, world.key, world.safe);
    NoRowsNone(db.steps, c, SafetyStep);
    NoRowsNone(db.steps, c, SafeStep);
    NoRowsNone(db.steps, c, AdviceStep);
    NoRowAdded(db.steps, safety, c, SafeStep);
    NoRowAdded(db.steps, safety, c, AdviceStep);
    NoRowAdded(db.steps + [safety], safe, c, AdviceStep);
    hide HasRow, NoRows, Concluded;
  }

  // ---------- how an undisturbed analysis ends ----------

  /** A case whose analysis may start afresh. */
  ghost predicate New(db: Db, c: CaseId, revision: nat) {
    !Busy(db) && Claimable(db, c, revision) && db.cases[c].result.None? && NoRows(db.steps, c)
  }

  function Computes(world: World): bool { world.safety.Some? && world.safety.value.verdict == Allow && world.disabled.None? && world.safe.Some? }

  /** The case at the end: failed when a provider did not answer, settled by the safety verdict, paused
      when a part is switched off, and else with the result and the state it stands for. */
  function Ending(x: CaseRow, world: World): CaseRow {
    var y := x.(attempts := x.attempts + 1, leaseToken := None, leaseUntil := None);
    if world.safety.None? then y.(state := Failed, failure := Some(ConsumedCode))
    else
      var z := y.(safety := Some(world.safety.value.verdict));
      match world.safety.value.verdict
      case Block => z.(state := SafetyBlocked)
      case Review => z.(state := SafetyReview)
      case Allow =>
        if world.disabled.Some? then z.(state := Paused, failure := world.disabled)
        else if world.safe.None? then z.(state := Failed, failure := Some(ConsumedCode))
        else z.(state := ResultState(world.compiled), result := Some(WithAdvice(world.compiled, world)))
  }

  /** Its journal: one row for each step that was begun, completed or ambiguous. */
  function Rows(c: CaseId, revision: nat, world: World): seq<StepRow> {
    var w := Claimed(c, revision, 0, 0, None);
    [Journal(w, SafetyStep, world.key, world.safety)]
    + (if world.safety.Some? && world.safety.value.verdict == Allow && world.disabled.None? then [Journal(w, SafeStep, world.key, world.safe)] else [])
    + (if Computes(world) && world.compiled.eligible && world.compiled.advisory != AdviceComplete && !world.adviserOff
       then [Journal(w, AdviceStep, world.packetKey, world.advice)] else [])
  }

  function Handled(db: Db, w: Worker, world: World): Db {
    var (d, w') := Tried(db, w, world);
    if w'.phase.Failing? then SettleFailureTx(d, w'.row, w'.phase.code, w'.result) else d
  }

  /** The case while the analysis runs. */
  function OnLease(x: CaseRow, token: Token, now: int): CaseRow {
    x.(state := Analyzing, leaseToken := Some(token), leaseUntil := Some(now + 300), attempts := x.attempts + 1)
  }

  lemma ClaimsFresh(db: Db, c: CaseId, revision: nat, token: Token)
    requires New(db, c, revision)
    ensures var d := RowSet(db, c, OnLease(db.cases[c], token, db.now));
            var claimed := Claimed(c, revision, token, db.now + 300, None);
            ClaimTx(db, c, revision, token) == (d, Some(claimed)) && Fence(d, claimed) && NoRows(d.steps, c)
  {
    hide Busy, NoRows;
  }

  lemma HandledEnds(db: Db, x: CaseRow, row: Claimed, world: World)
    requires row.caseId in db.cases && db.cases[row.caseId] == OnLease(x, row.token, db.now) && x.result.None? && !x.deleted && x.revision == row.revision
    ensures var w := Worker(row, Analysis, None, Ready);
            Handled(db, w, world) == Db(db.now, db.cases[row.caseId := Ending(x, world)], db.steps + Rows(row.caseId, row.revision, world))
  {
    var safety, safe, advice := Journal(row, SafetyStep, world.key, world.safety), Journal(row, SafeStep, world.key, world.safe),
                                Journal(row, AdviceStep, world.packetKey, world.advice);
    assert Rows(row.caseId, row.revision, world) == [safety]
      + (if world.safety.Some? && world.safety.value.verdict == Allow && world.disabled.None? then [safe] else [])
      + (if Computes(world) && world.compiled.eligible && world.compiled.advisory != AdviceComplete && !world.adviserOff then [advice] else []);
    hide Rows;
  }

  lemma EndsSo(db: Db, c: CaseId, revision: nat, token: Token, world: World)
    requires New(db, c, revision)
    ensures var (d0, claimed) := ClaimTx(db, c, revision, token);
            && claimed.Some? && claimed.value.caseId == c && claimed.value.result.None?
            && Fence(d0, claimed.value) && NoRows(d0.steps, c)
            && Handled(d0, Worker(claimed.value, Analysis, None, Ready), world)
               == Db(db.now, db.cases[c := Ending(db.cases[c], world)], db.steps + Rows(c, revision, world))
  {
    ClaimsFresh(db, c, revision, token);
    var x := db.cases[c];
    var d := RowSet(db, c, OnLease(x, token, db.now));
    HandledEnds(d, x, Claimed(c, revision, token, db.now + 300, None), world);
    assert d.cases[c := Ending(x, world)] == db.cases[c := Ending(x, world)];
    hide Handled, Ending, Rows, ClaimTx, Fence, NoRows, Busy;
  }

  /** Where a step leads does not depend on how far it has come. */
  lemma SteppedElsewhere(w: Worker, name: StepName, phase: Phase, answer: Option<Output>)
    requires MayBegin(w, name)
    ensures Stepped(w.(phase := phase), name, answer) == Stepped(w, name, answer)
    ensures forall w' :: StepOver(w.(phase := phase), name, w') ==> StepOver(w, name, w')
    ensures name == AdviceStep ==> w.result.Some?
  {
  }

  lemma MayBeginOver(w: Worker, name: StepName, code: FailureCode)
    requires MayBegin(w, name)
    ensures StepOver(w, name, AfterFailedStep(w, name, code))
  {
  }

  lemma RunNothing(s: State)
    ensures Run(s, []) == s
  {
  }

  // ---------- the program ----------

  /** `system` is the run so far, of which the store holds the tables. The program's own variables are
      passed along as the worker it stands at. */
  class Program {
    const db: Database
    const token: Token
    const world: World
    var system: State
    var awaits: nat
    ghost const start: State
    ghost var es: seq<Event>

    constructor (db: Database, system: State, token: Token, world: World)
      requires db.View() == system.db && Inv(system) && forall n: nat :: Foreign(world.others(n), token)
      ensures this.db == db && this.token == token && this.world == world && this.system == system && start == system && Valid()
    {
      this.db, this.system, this.token, this.world := db, system, token, world;
      awaits := 0;
      start, es := system, [];
    }

    ghost predicate Valid()
      reads this, db
    {
      && db.View() == system.db && Inv(system) && system == Run(start, es)
      && forall n: nat :: Foreign(world.others(n), token)
    }

    ghost predicate Stands(w: Worker)
      reads this, db
    {
      Valid() && token in system.workers && system.workers[token] == w
    }

    /** An await: others commit. */
    method Await()
      requires Valid()
      modifies this, db
      ensures Valid() && Evolves(old(system).db, system.db)
      ensures token in system.workers <==> token in old(system).workers
      ensures token in system.workers ==> system.workers[token] == old(system).workers[token]
      ensures Quiet(world) ==> system == old(system)
    {
      RunNothing(system);
      hide Inv, Foreign, Evolves;
      var others := world.others(awaits);
      ForeignRun(system, others, token);
      RunConcat(start, es, others);
      system := Run(system, others);
      es := es + others;
      awaits := awaits + 1;
      db.Commit(system.db);
    }

    /** The store has just done what the action does. */
    method Record(action: Action)
      requires Inv(system) && system == Run(start, es) && forall n: nat :: Foreign(world.others(n), token)
      requires token in system.workers && db.View() == ApplyWorker(system, token, action).db
      modifies this`system, this`es
      ensures Valid() && system == ApplyWorker(old(system), token, action)
    {
      hide Inv, Foreign, ApplyWorker;
      var e := Work(token, action);
      StepKeeps(system, e);
      RunSnoc(start, es, e);
      system := Apply(system, e);
      es := es + [e];
    }

    /** `current`: configuration and budget first, then the fence. */
    method Check(w: Worker) returns (failure: Option<FailureCode>)
      requires Stands(w)
      modifies this, db
      ensures Stands(w) && Evolves(old(system).db, system.db)
      ensures failure.None? ==> Fence(system.db, w.row)
      ensures failure == Some(Stale) ==> !Fence(system.db, w.row)
      ensures Quiet(world) ==> system == old(system) && (Fence(system.db, w.row) ==> failure.None?)
    {
      hide Inv, Foreign, Evolves, Run, Fence;
      Await();
      failure := world.throws(awaits);
      if failure.None? || failure == Some(Stale) {
        failure := if db.HoldsLease(w.row) then None else Some(Stale);
      }
    }

    /** A query of its own: it may be rejected. */
    method Ask(w: Worker) returns (ok: bool)
      requires Stands(w)
      modifies this, db
      ensures Stands(w) && Evolves(old(system).db, system.db)
      ensures Quiet(world) ==> ok && system == old(system)
    {
      hide Inv, Foreign, Evolves, Run;
      Await();
      ok := world.throws(awaits).None?;
    }

    method Fail(w: Worker, code: FailureCode) returns (w': Worker)
      requires Stands(w) && Running(w) && (code == Stale ==> !Fence(system.db, w.row))
      modifies this
      ensures Stands(w') && w' == w.(phase := Failing(code))
    {
      hide Inv, Foreign, Run, Fence;
      Record(Throw(code));
      w' := w.(phase := Failing(code));
    }

    /** A check before the step's row failed: advice swallows it, the other steps reach the handler. */
    method Refuse(w: Worker, name: StepName, code: FailureCode) returns (w': Worker)
      requires Stands(w) && MayBegin(w, name) && (code == Stale ==> !Fence(system.db, w.row))
      modifies this
      ensures Stands(w') && w' == AfterFailedStep(w, name, code)
    {
      hide Inv, Foreign, Run, Fence;
      if name == AdviceStep {
        Record(SkipAdvice(false));
        w' := WithAdvisory(w, AttemptConsumed);
      } else {
        w' := Fail(w, code);
      }
    }

    /** A completed row of the step is there: its output is good once the checks pass again. */
    method Reuse(w: Worker, name: StepName, key: nat, output: Output) returns (w': Worker)
      requires Stands(w) && MayBegin(w, name) && BeginTx(system.db, w.row, name, key) == (system.db, Reused(output))
      modifies this, db
      ensures Stands(w') && StepOver(w, name, w')
    {
      hide Inv, Foreign, Run, Fence, Evolves, BeginTx;
      ghost var before := system.db;
      if name == AdviceStep {
        var failure := Check(w);
        if failure.Some? {
          w' := Refuse(w, name, failure.value);
        } else {
          assert Unique(system.db.steps) by { InvUnique(system); }
          ReuseStable(before, system.db, w.row, name, key);
          Record(Begin(name, key));
          w' := AfterStep(w, name, output);
        }
      } else {
        Record(Begin(name, key));
        w' := AfterStep(w, name, output);
        var failure := Check(w');
        if failure.Some? { w' := Fail(w', failure.value); }
      }
    }

    /** The catch block inside a step. */
    method GiveUp(w: Worker) returns (w': Worker)
      requires Stands(w) && w.phase.Abandoning? && (w.phase.name == AdviceStep ==> w.result.Some?)
      modifies this, db
      ensures Stands(w') && StepOver(w, w.phase.name, w')
      ensures Quiet(world) ==> system.db == AbandonTx(old(system).db, w.phase.id) && w' == AfterFailedStep(w, w.phase.name, ConsumedCode)
    {
      hide Inv, Foreign, Run, Evolves, AbandonTx;
      Await();
      if world.lost(awaits) {
        Record(LoseStep);
        w' := AfterFailedStep(w, w.phase.name, ExecutionFailed);
      } else {
        db.AbandonStep(w.phase.id);
        Record(Abandon);
        w' := AfterFailedStep(w, w.phase.name, ConsumedCode);
      }
    }

    /** Something inside the step's try block throws. */
    method ThrowInStep(w: Worker) returns (w': Worker)
      requires Stands(w) && w.phase.InStep?
      modifies this`system, this`es
      ensures Stands(w') && w' == w.(phase := Abandoning(w.phase.name, w.phase.id)) && system.db == old(system).db
    {
      hide Inv, Foreign, Run, Fence;
      Record(Throw(ExecutionFailed));
      w' := w.(phase := Abandoning(w.phase.name, w.phase.id));
    }

    /** The provider has answered: complete the row under the fence. */
    method Close(w: Worker, output: Output) returns (w': Worker)
      requires Stands(w) && w.phase.InStep? && w.phase.called && (w.phase.name == AdviceStep ==> w.result.Some?)
      modifies this, db
      ensures Stands(w') && StepOver(w, w.phase.name, w')
      ensures Quiet(world) && Fence(old(system).db, w.row) ==>
                system.db == CompleteTx(old(system).db, w.row, w.phase.id, output).0 && w' == AfterStep(w, w.phase.name, output)
    {
      hide Inv, Foreign, Run, Fence, Evolves, CompleteTx, ApplyWorker, AbandonTx;
      var asked := Ask(w);
      if !asked {
        w' := ThrowInStep(w);
        w' := GiveUp(w');
        return;
      }
      CompletesWhenFenced(system.db, w.row, w.phase.id, output);
      var ok := db.CompleteStep(w.row, w.phase.id, output);
      var acknowledged := !world.lost(awaits);
      FinishApplies(system, token, output, acknowledged);
      Record(Finish(output, acknowledged));
      if ok && acknowledged {
        w' := AfterStep(w, w.phase.name, output);
      } else {
        w' := GiveUp(w.(phase := Abandoning(w.phase.name, w.phase.id)));
      }
    }

    /** The step's own row is inserted: call the provider once, check again and close. */
    method Perform(w: Worker, answer: Option<Output>) returns (w': Worker)
      requires Stands(w) && w.phase.InStep? && !w.phase.called && (w.phase.name == AdviceStep ==> w.result.Some?)
      modifies this, db
      ensures Stands(w') && StepOver(w, w.phase.name, w')
      ensures Quiet(world) && Fence(old(system).db, w.row) ==>
                && w' == Stepped(w, w.phase.name, answer)
                && system.db == if answer.Some? then CompleteTx(old(system).db, w.row, w.phase.id, answer.value).0 else AbandonTx(old(system).db, w.phase.id)
    {
      hide Inv, Foreign, Run, Fence, Evolves, CompleteTx, AbandonTx;
      var name, id := w.phase.name, w.phase.id;
      if world.lost(awaits) {
        Record(LoseStep);
        w' := AfterFailedStep(w, name, ExecutionFailed);
        return;
      }
      Await();
      Record(Execute);
      w' := w.(phase := InStep(name, id, true));
      var failure := Check(w');
      if answer.Some? && failure.None? {
        w' := Close(w', answer.value);
      } else {
        w' := ThrowInStep(w');
        w' := GiveUp(w');
      }
    }

    /** The opening transaction of a step, and what follows from its answer. */
    method OpenStep(w: Worker, name: StepName, key: nat, answer: Option<Output>) returns (w': Worker)
      requires Stands(w) && MayBegin(w, name)
      modifies this, db
      ensures Stands(w') && StepOver(w, name, w')
      ensures Quiet(world) && Fence(old(system).db, w.row) && !HasRow(old(system).db.steps, w.row.caseId, name) ==>
                w' == Stepped(w, name, answer) && system.db == Journalling(old(system).db, w.row, name, key, answer)
    {
      hide Inv, Foreign, Run, Fence, Evolves, BeginTx, HasRow, CompleteTx, AbandonTx, Journalling, ApplyWorker, Stepped, AfterFailedStep, StepOver;
      if Fence(system.db, w.row) && !HasRow(system.db.steps, w.row.caseId, name) {
        BeginsFresh(system.db, w.row, name, key);
        ClosesNewRow(system.db, w.row, name, key, answer);
      }
      MayBeginOver(w, name, Stale);
      MayBeginOver(w, name, ConsumedCode);
      var begun := BeginRow(w, name, key);
      if begun.Inserted? { SteppedElsewhere(w, name, InStep(name, begun.id, false), answer); }
      match begun {
        case Reused(output) => w' := Reuse(w, name, key, output);
        case Inserted(id) => w' := Perform(w.(phase := InStep(name, id, false)), answer);
        case StaleLease => w' := AfterFailedStep(w, name, Stale);
        case Consumed => w' := AfterFailedStep(w, name, ConsumedCode);
      }
    }

    /** The opening transaction. That an output can be reused is noted only once the checks have passed. */
    method BeginRow(w: Worker, name: StepName, key: nat) returns (begun: Begun)
      requires Stands(w) && MayBegin(w, name)
      modifies this`system, this`es, db
      ensures (system.db, begun) == BeginTx(old(system).db, w.row, name, key)
      ensures begun.Reused? ==> Stands(w) && BeginTx(system.db, w.row, name, key) == (system.db, begun)
      ensures begun.Inserted? ==> Stands(w.(phase := InStep(name, begun.id, false)))
      ensures begun.StaleLease? ==> Stands(AfterFailedStep(w, name, Stale))
      ensures begun.Consumed? ==> Stands(AfterFailedStep(w, name, ConsumedCode))
    {
      hide Inv, Foreign, Run, BeginTx, ApplyWorker, AfterFailedStep, MayBegin;
      ReuseWritesNothing(system.db, w.row, name, key);
      BeginApplies(system, token, name, key);
      begun := db.BeginStep(w.row, name, key);
      if !begun.Reused? { Record(Begin(name, key)); }
    }

    /** `step`. */
    method PaidStep(w: Worker, name: StepName, key: nat, answer: Option<Output>) returns (w': Worker)
      requires Stands(w) && MayBegin(w, name)
      modifies this, db
      ensures Stands(w') && StepOver(w, name, w')
      ensures Quiet(world) && Fence(old(system).db, w.row) && !HasRow(old(system).db.steps, w.row.caseId, name) ==>
                w' == Stepped(w, name, answer) && system.db == Journalling(old(system).db, w.row, name, key, answer)
    {
      hide Inv, Foreign, Run, Fence, Evolves, HasRow, Journalling, Stepped;
      var failure := Check(w);
      if failure.Some? {
        w' := Refuse(w, name, failure.value);
        return;
      }
      var asked := Ask(w);
      if !asked {
        w' := Refuse(w, name, ExecutionFailed);
        return;
      }
      w' := OpenStep(w, name, key, answer);
    }

    /** The advice path: an eligible result and two recorded gates. */
    method EnterAdvice(w: Worker) returns (w': Worker)
      requires Stands(w) && w.phase == Ready && w.op == Advice
      modifies this, db
      ensures Stands(w') && w'.row == w.row && (w'.phase.Failing? || (w'.phase == Scored && w'.result.Some?))
    {
      hide Inv, Foreign, Run, Evolves, RecordedCount;
      var asked := Ask(w);
      if !asked {
        w' := Fail(w, ExecutionFailed);
        return;
      }
      var recorded := db.CountRecorded(w.row.caseId);
      Record(CheckAdvice);
      var eligible := w.result.Some? && w.result.value.eligible;
      w' := w.(phase := if eligible && recorded == 2 then Scored else Failing(ConsumedCode));
    }

    /** `saveResult` for a result just compiled. */
    method SaveCompiledResult(w: Worker) returns (w': Worker)
      requires Stands(w) && w.phase == HasSafe
      modifies this, db
      ensures Stands(w') && w'.row == w.row && (w'.phase.Failing? || (w'.phase == Scored && w'.result.Some?))
      ensures Quiet(world) && Fence(old(system).db, w.row) ==>
                && w' == w.(result := Some(world.compiled), phase := Scored)
                && system.db == SaveResultTx(old(system).db, w.row, world.compiled, false).0
    {
      hide Inv, Foreign, Run, Fence, Evolves, SaveResultTx;
      SavesWhenFenced(system.db, w.row, world.compiled, false);
      Record(Compile(world.compiled));
      w' := w.(result := Some(world.compiled), phase := Compiled);
      var failure := Check(w');
      if failure.Some? {
        w' := Fail(w', failure.value);
        return;
      }
      Await();
      SaveApplies(system, token, false);
      hide ApplyWorker;
      var saved := db.SaveResult(w.row, world.compiled, false);
      Record(SaveCompiled);
      w' := w'.(phase := if saved then Scored else Failing(Stale));
    }

    /** After the safety step: save its verdict and go on from there. */
    method AfterSafety(w: Worker) returns (w': Worker)
      requires Stands(w) && w.phase.HasSafety?
      modifies this, db
      ensures Stands(w') && w'.row == w.row
      ensures w'.phase.Failing? || (w'.phase == Scored && w'.result.Some?) || (w'.phase == Gone && LeftFree(system, token))
      ensures Quiet(world) && Fence(old(system).db, w.row) && w.result.None? && !HasRow(old(system).db.steps, w.row.caseId, SafeStep) ==>
                (system.db, w') == Screened(old(system).db, w, w.phase.verdict, world)
                && (w'.phase == Scored ==> Fence(system.db, w.row))
    {
      hide Inv, Foreign, Run, Fence, Evolves, LeftFree, SaveSafetyTx, Screened, ScreenedOn, HasRow, ApplyWorker;
      if Fence(system.db, w.row) && w.result.None? && Quiet(world) { ScreenedSteps(system.db, w, w.phase.verdict, world); }
      var asked := Ask(w);
      if !asked {
        w' := Fail(w, ExecutionFailed);
        return;
      }
      w' := SaveVerdict(w);
      w' := ScreenOn(w');
    }

    method SaveVerdict(w: Worker) returns (w': Worker)
      requires Stands(w) && w.phase.HasSafety?
      modifies this`system, this`es, db
      ensures Stands(w') && w' == w.(phase := SafetySaved(w.phase.verdict))
      ensures system.db == SaveSafetyTx(old(system).db, w.row, w.phase.verdict).0
    {
      hide Inv, Foreign, Run, SaveSafetyTx, ApplyWorker;
      SafetyApplies(system, token);
      db.SaveSafety(w.row, w.phase.verdict);
      Record(SaveSafety);
      w' := w.(phase := SafetySaved(w.phase.verdict));
    }

    /** With the verdict saved: settle the case, reuse the stored result or compute one. */
    method ScreenOn(w: Worker) returns (w': Worker)
      requires Stands(w) && w.phase.SafetySaved?
      modifies this, db
      ensures Stands(w') && w'.row == w.row
      ensures w'.phase.Failing? || (w'.phase == Scored && w'.result.Some?) || (w'.phase == Gone && LeftFree(system, token))
      ensures Quiet(world) && Fence(old(system).db, w.row) && w.result.None? && !HasRow(old(system).db.steps, w.row.caseId, SafeStep) ==>
                (system.db, w') == ScreenedOn(old(system).db, w, w.phase.verdict, world)
    {
      hide Inv, Foreign, Run, Fence, Evolves, LeftFree, HasRow, Computed, SettleSafetyTx, SettleDisabledTx;
      if w.phase.verdict != Allow || (world.disabled.Some? && world.disabled.value in {BlockedRights, BlockedRuntime}) {
        w' := SettleCase(w);
      } else if w.result.Some? && world.outdated {
        w' := Fail(w, ConsumedCode);
      } else if w.result.Some? {
        Record(ReuseResult);
        w' := w.(phase := Scored);
      } else {
        w' := Compute(w);
      }
    }

    /** The safe step, and its compiled result saved. */
    method Compute(w: Worker) returns (w': Worker)
      requires Stands(w) && w.phase == SafetySaved(Allow) && w.result.None?
      modifies this, db
      ensures Stands(w') && w'.row == w.row && (w'.phase.Failing? || (w'.phase == Scored && w'.result.Some?))
      ensures Quiet(world) && Fence(old(system).db, w.row) && !HasRow(old(system).db.steps, w.row.caseId, SafeStep) ==>
                (system.db, w') == Computed(old(system).db, w, world)
    {
      hide Inv, Foreign, Run, Fence, Evolves, HasRow, Journalling, SaveResultTx, ApplyWorker, Computed, Stepped;
      if Fence(system.db, w.row) { FenceJournalled(system.db, w.row, SafeStep, world.key, world.safe); }
      ComputedIs(system.db, w, world);
      w' := PaidStep(w, SafeStep, world.key, world.safe);
      if w'.phase == HasSafe { w' := SaveCompiledResult(w'); }
    }

    /** The safety verdict or the configuration ends the case. */
    method SettleCase(w: Worker) returns (w': Worker)
      requires Stands(w) && w.phase.SafetySaved?
      requires w.phase.verdict != Allow || (world.disabled.Some? && world.disabled.value in {BlockedRights, BlockedRuntime})
      modifies this, db
      ensures Stands(w') && w'.row == w.row
      ensures w'.phase.Failing? || (w'.phase == Gone && LeftFree(system, token))
      ensures Quiet(world) && Fence(old(system).db, w.row) ==>
                && w' == w.(phase := Gone)
                && system.db == if w.phase.verdict == Allow then SettleDisabledTx(old(system).db, w.row, world.disabled.value).0
                                else SettleSafetyTx(old(system).db, w.row, w.phase.verdict).0
    {
      hide Inv, Foreign, Run, Fence, Evolves, LeftFree, SettleSafetyTx, SettleDisabledTx;
      var verdict := w.phase.verdict;
      var asked := Ask(w);
      if !asked {
        w' := Fail(w, ExecutionFailed);
        return;
      }
      w' := w.(phase := Gone);
      SettleApplies(system, token, if world.disabled.Some? then world.disabled.value else Stale);
      hide ApplyWorker;
      if verdict != Allow {
        db.SettleSafety(w.row, verdict);
        FencedEndFrees(system, token, SettleSafety);
        Record(SettleSafety);
      } else {
        db.SettleDisabled(w.row, world.disabled.value);
        FencedEndFrees(system, token, SettleDisabled(world.disabled.value));
        Record(SettleDisabled(world.disabled.value));
      }
    }

    /** The advisory. */
    method Advise(w: Worker) returns (w': Worker)
      requires Stands(w) && w.phase == Scored && w.result.Some?
      modifies this, db
      ensures Stands(w') && w'.row == w.row && w'.phase == Final && w'.result.Some?
      ensures Quiet(world) && Fence(old(system).db, w.row) && !HasRow(old(system).db.steps, w.row.caseId, AdviceStep) ==>
                var r := w.result.value;
                && w' == w.(phase := Final, result := Some(WithAdvice(r, world)))
                && system.db == if !r.eligible || r.advisory == AdviceComplete || world.adviserOff then old(system).db
                                else Journalling(old(system).db, w.row, AdviceStep, world.packetKey, world.advice)
    {
      hide Inv, Foreign, Run, Fence, Evolves, HasRow, Journalling;
      if !w.result.value.eligible || w.result.value.advisory == AdviceComplete {
        Record(SkipAdvice(false));
        w' := w.(phase := Final);
      } else if world.adviserOff {
        Record(SkipAdvice(true));
        w' := WithAdvisory(w, Disabled);
      } else {
        w' := PaidStep(w, AdviceStep, world.packetKey, world.advice);
      }
    }

    /** `saveResult` for the final result. */
    method SaveFinalResult(w: Worker) returns (w': Worker)
      requires Stands(w) && w.phase == Final && w.result.Some?
      modifies this, db
      ensures Stands(w') && w'.row == w.row
      ensures w'.phase.Failing? || (w'.phase == Gone && LeftFree(system, token))
      ensures Quiet(world) && Fence(old(system).db, w.row) ==>
                && w' == w.(phase := Gone)
                && system.db == SaveResultTx(old(system).db, w.row, w.result.value, true).0
    {
      hide Inv, Foreign, Run, Fence, Evolves, LeftFree, SaveResultTx, ApplyWorker;
      SavesWhenFenced(system.db, w.row, w.result.value, true);
      var failure := Check(w);
      if failure.Some? {
        w' := Fail(w, failure.value);
        return;
      }
      Await();
      w' := WriteFinal(w);
    }

    method WriteFinal(w: Worker) returns (w': Worker)
      requires Stands(w) && w.phase == Final && w.result.Some?
      modifies this`system, this`es, db
      ensures Stands(w') && w' == w.(phase := if SaveResultTx(old(system).db, w.row, w.result.value, true).1 then Gone else Failing(Stale))
      ensures w'.phase == Gone ==> LeftFree(system, token)
      ensures system.db == SaveResultTx(old(system).db, w.row, w.result.value, true).0
    {
      hide Inv, Foreign, Run, LeftFree, SaveResultTx, ApplyWorker;
      FinalSaveFrees(system, token);
      SaveApplies(system, token, true);
      var saved := db.SaveResult(w.row, w.result.value, true);
      Record(SaveFinal);
      w' := w.(phase := if saved then Gone else Failing(Stale));
    }

    /** A result is in hand and stored: check again, advise, and save. */
    method Conclude(w: Worker) returns (w': Worker)
      requires Stands(w) && w.phase == Scored && w.result.Some?
      modifies this, db
      ensures Stands(w') && w'.row == w.row
      ensures w'.phase.Failing? || (w'.phase == Gone && LeftFree(system, token))
      ensures Quiet(world) && Fence(old(system).db, w.row) && !HasRow(old(system).db.steps, w.row.caseId, AdviceStep) ==>
                w'.phase == Gone && system.db == Concluded(old(system).db, w, world)
    {
      hide Inv, Foreign, Run, Fence, Evolves, LeftFree, HasRow, Journalling, Concluded, SaveResultTx;
      if Fence(system.db, w.row) { ConcludedSteps(system.db, w, world); }
      var failure := Check(w);
      if failure.Some? {
        w' := Fail(w, failure.value);
      } else {
        w' := Advise(w);
        w' := SaveFinalResult(w');
      }
    }

    /** The body of the try block. */
    method TryBody(w: Worker) returns (w': Worker)
      requires Stands(w) && w.phase == Ready
      modifies this, db
      ensures Stands(w') && w'.row == w.row
      ensures w'.phase.Failing? || (w'.phase == Gone && LeftFree(system, token))
      ensures Quiet(world) && Fence(old(system).db, w.row) && w.op == Analysis && w.result.None? && NoRows(old(system).db.steps, w.row.caseId) ==>
                && system.db == Tried(old(system).db, w, world).0 && w'.phase == Tried(old(system).db, w, world).1.phase
                && (w'.phase.Failing? ==> w' == Tried(old(system).db, w, world).1)
    {
      hide Inv, Foreign, Run, Fence, Evolves, LeftFree, HasRow, NoRows, Concluded, Screening, ApplyWorker, Tried;
      if Fence(system.db, w.row) && NoRows(system.db.steps, w.row.caseId) && w.result.None? { TriedSteps(system.db, w, world); }
      TriedIs(system.db, w, world);
      var failure := Check(w);
      if failure.Some? {
        w' := Fail(w, failure.value);
        return;
      }
      w' := Attempt(w);
      if w'.phase == Scored { w' := Conclude(w'); }
    }

    /** The way to a stored result, for either operation. */
    method Attempt(w: Worker) returns (w': Worker)
      requires Stands(w) && w.phase == Ready
      modifies this, db
      ensures Stands(w') && w'.row == w.row
      ensures w'.phase.Failing? || (w'.phase == Scored && w'.result.Some?) || (w'.phase == Gone && LeftFree(system, token))
      ensures Quiet(world) && Fence(old(system).db, w.row) && w.op == Analysis && w.result.None? && NoRows(old(system).db.steps, w.row.caseId) ==>
                (system.db, w') == Screening(old(system).db, w, world) && (w'.phase == Scored ==> Fence(system.db, w.row))
    {
      hide Inv, Foreign, Run, Fence, Evolves, LeftFree, NoRows, Screening, ApplyWorker;
      if w.op == Advice {
        w' := EnterAdvice(w);
      } else {
        w' := Analyse(w);
      }
    }

    /** The analysis up to a stored result. */
    method Analyse(w: Worker) returns (w': Worker)
      requires Stands(w) && w.phase == Ready && w.op == Analysis
      modifies this, db
      ensures Stands(w') && w'.row == w.row
      ensures w'.phase.Failing? || (w'.phase == Scored && w'.result.Some?) || (w'.phase == Gone && LeftFree(system, token))
      ensures Quiet(world) && Fence(old(system).db, w.row) && w.result.None? && NoRows(old(system).db.steps, w.row.caseId) ==>
                (system.db, w') == Screening(old(system).db, w, world) && (w'.phase == Scored ==> Fence(system.db, w.row))
    {
      hide Inv, Foreign, Run, Fence, Evolves, LeftFree, HasRow, NoRows, Journalling, Screened, ApplyWorker, Tried, Screening, Stepped;
      if Fence(system.db, w.row) && NoRows(system.db.steps, w.row.caseId) && w.result.None? { TriedSteps(system.db, w, world); }
      ScreeningIs(system.db, w, world);
      w' := PaidStep(w, SafetyStep, world.key, world.safety);
      if w'.phase.HasSafety? { w' := AfterSafety(w'); }
    }

    /** `processBetaEvent`: whatever others do in between, its transactions and theirs are one run of
        the protocol. Once it has returned, its case is free of its token or its time is up, so it leaves a
        live lease behind only by rejecting: when the catch handler's own update was lost. */
    method Process(c: CaseId, revision: nat, op: Operation) returns (claimed: bool, rejected: bool)
      requires Valid() && token !in system.workers
      modifies this, db
      ensures db.View() == Run(start, es).db && Inv(Run(start, es))
      ensures claimed <==> token in Run(start, es).workers
      ensures claimed ==> Run(start, es).workers[token].phase == Gone && (rejected || LeftFree(Run(start, es), token))
      ensures rejected ==> claimed && world.lost(awaits)
      ensures Quiet(world) && op == Analysis && New(old(system).db, c, revision) ==>
                && claimed && !rejected
                && db.View() == Db(old(system).db.now, old(system).db.cases[c := Ending(old(system).db.cases[c], world)],
                                   old(system).db.steps + Rows(c, revision, world))
    {
      hide Inv, Foreign, Run, Evolves, LeftFree, ClaimTx, Handled, Ending, Rows, New, Fence, NoRows;
      if New(system.db, c, revision) { EndsSo(system.db, c, revision, token, world); }
      Await();
      var w := TakeCase(c, revision, op);
      if w.None? { return false, false; }
      claimed := true;
      rejected := Handle(w.value);
    }

    /** The claiming transaction. */
    method TakeCase(c: CaseId, revision: nat, op: Operation) returns (w: Option<Worker>)
      requires Valid() && token !in system.workers
      modifies this`system, this`es, db
      ensures Valid()
      ensures var (d, claimed) := ClaimTx(old(system).db, c, revision, token);
              if claimed.None? then w.None? && system == old(system)
              else system.db == d && w == Some(Worker(claimed.value, op, claimed.value.result, Ready)) && Stands(w.value)
    {
      hide Inv, Foreign, Run, ClaimTx, Busy, Claimable, Apply;
      ClaimApplies(system, c, revision, token, op);
      var busy, row := db.ClaimCase(c, revision, token);
      if row.None? { return None; }
      var e := Claim(c, revision, token, op);
      StepKeeps(system, e);
      RunSnoc(start, es, e);
      system := Apply(system, e);
      es := es + [e];
      w := Some(Worker(row.value, op, row.value.result, Ready));
    }

    /** The try block, and the catch handler where it is needed. */
    method Handle(w: Worker) returns (rejected: bool)
      requires Stands(w) && w.phase == Ready
      modifies this, db
      ensures Valid() && token in system.workers && system.workers[token].phase == Gone
      ensures (rejected ==> world.lost(awaits)) && (!rejected ==> LeftFree(system, token))
      ensures Quiet(world) && Fence(old(system).db, w.row) && w.op == Analysis && w.result.None? && NoRows(old(system).db.steps, w.row.caseId) ==>
                !rejected && system.db == Handled(old(system).db, w, world)
    {
      hide Inv, Foreign, Run, Fence, Evolves, LeftFree, SettleFailureTx, Tried, NoRows;
      rejected := false;
      var w' := TryBody(w);
      if w'.phase.Failing? { rejected := HandleFailure(w'); }
    }

    /** The catch handler. When its update is rejected so is the whole call, and the worker is gone. */
    method HandleFailure(w: Worker) returns (rejected: bool)
      requires Stands(w) && w.phase.Failing?
      modifies this, db
      ensures Stands(w.(phase := Gone)) && (rejected ==> world.lost(awaits)) && (!rejected ==> LeftFree(system, token))
      ensures Quiet(world) ==> !rejected && system.db == SettleFailureTx(old(system).db, w.row, w.phase.code, w.result)
    {
      hide Inv, Foreign, Run, Evolves, LeftFree, SettleFailureTx;
      Await();
      rejected := world.lost(awaits);
      if rejected {
        Record(Crash);
      } else {
        db.SettleFailure(w.row, w.phase.code, w.result);
        FailureFrees(system, token);
        Record(SettleFailure);
      }
    }
  }
}
