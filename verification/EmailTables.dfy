/** Rows of the transactional email outbox, and its transactions. One clock, in milliseconds. */
module EmailTables {
  import opened Options

  type MailId = nat
  type MessageId = string

  datatype MailState =
    | Queued | Processing | Accepted | Delivered | Deferred
    | Bounced | Rejected | MailFailed | Cancelled | Complained

  datatype Category = Transient | Permanent | Unknown

  datatype MailRow = MailRow(
    state: MailState,
    attempts: nat,
    nextAttemptAt: int,
    updatedAt: int,
    envelope: bool,                 // the encrypted delivery envelope is still stored
    messageId: Option<MessageId>)   // set by provider acceptance

  datatype Outbox = Outbox(now: int, rows: map<MailId, MailRow>)

  /** What a claim hands to the deliverer. The attempt number is the row's count after the claim. */
  datatype Claim = Claim(id: MailId, attempt: nat)

  const STALE_MS := 300_000
  const MAX_ATTEMPTS := 8
  const BASE_DELAY_MS := 30_000
  const MAX_DELAY_MS := 21_600_000

  predicate Pending(r: MailRow) { r.state in {Queued, Processing} }

  function Power2(n: nat): nat { if n == 0 then 1 else 2 * Power2(n - 1) }

  function Delay(attempts: nat): nat {
    var d := BASE_DELAY_MS * Power2(if attempts == 0 then 0 else attempts - 1);
    if d < MAX_DELAY_MS then d else MAX_DELAY_MS
  }

  /** The retry policy: a transient failure below the attempt limit is queued again after an
      exponential delay stretched by at most a fifth; everything else fails for good. */
  function NextMailState(category: Category, attempts: nat, now: int, jitter: real): (r: (MailState, Option<int>))
    requires 0.0 <= jitter <= 1.0
  {
    if category != Transient || attempts >= MAX_ATTEMPTS then (MailFailed, None)
    else (Queued, Some(now + Delay(attempts) + (Delay(attempts) as real * 0.2 * jitter).Floor))
  }

  // ---------- claiming ----------

  predicate StaleRow(r: MailRow, now: int) { r.state == Processing && r.updatedAt < now - STALE_MS }

  function FailedRow(r: MailRow, now: int): MailRow { r.(state := MailFailed, updatedAt := now, envelope := false) }

  function SweepStale(o: Outbox): Outbox {
    o.(rows := map id | id in o.rows :: if StaleRow(o.rows[id], o.now) then FailedRow(o.rows[id], o.now) else o.rows[id])
  }

  predicate Due(o: Outbox, id: MailId) { id in o.rows && o.rows[id].state == Queued && o.rows[id].nextAttemptAt <= o.now }

  /** One claiming transaction: fail stale rows, then take the due row the query picked, if any. */
  function ClaimTx(o: Outbox, id: MailId): (Outbox, Option<Claim>) {
    var swept := SweepStale(o);
    if !Due(swept, id) then (swept, None)
    else
      var r := swept.rows[id];
      (swept.(rows := swept.rows[id := r.(state := Processing, attempts := r.attempts + 1, updatedAt := o.now)]),
       Some(Claim(id, r.attempts + 1)))
  }

  // ---------- delivery ----------

  /** How a delivery transaction ends after its row was locked and found deliverable. */
  datatype Outcome =
    | RenderFails(category: Category)   // no envelope, no key, undecryptable: nothing is sent
    | SendFails(category: Category)     // the provider was called and refused or stayed silent
    | SendAccepted(messageId: MessageId)
    | SendThenCrash                     // sent, but the transaction never commits
    | CrashFirst                        // the transaction dies before the provider call

  function CancelRow(r: MailRow, now: int): MailRow { r.(state := Cancelled, updatedAt := now, envelope := false) }

  /** `markEmailFailure` on a processing row. */
  function MarkFailure(r: MailRow, attempt: nat, category: Category, now: int, jitter: real): MailRow
    requires 0.0 <= jitter <= 1.0
  {
    if r.state != Processing then r
    else
      var (state, at) := NextMailState(category, attempt, now, jitter);
      r.(state := state, updatedAt := now,
         nextAttemptAt := if at.Some? then at.value else r.nextAttemptAt,
         envelope := r.envelope && state != MailFailed)
  }

  /** The delivery transaction on its locked row. `deliverable` is the verdict of the challenge and
      account checks. The second result says whether the provider was called. */
  function DeliverRow(r: MailRow, attempt: nat, deliverable: bool, outcome: Outcome, now: int, jitter: real): (MailRow, bool)
    requires 0.0 <= jitter <= 1.0
  {
    if !(r.state == Processing && deliverable) then (if Pending(r) then CancelRow(r, now) else r, false)
    else
      match outcome
      case RenderFails(category) => (MarkFailure(r, attempt, category, now, jitter), false)
      case SendFails(category) => (MarkFailure(r, attempt, category, now, jitter), true)
      case SendAccepted(m) => (r.(state := Accepted, messageId := Some(m), envelope := false, updatedAt := now), true)
      case SendThenCrash => (r, true)
      case CrashFirst => (r, false)
  }

  function DeliverTx(o: Outbox, claim: Claim, deliverable: bool, outcome: Outcome, jitter: real): (Outbox, bool)
    requires 0.0 <= jitter <= 1.0
  {
    if claim.id !in o.rows then (o, false)
    else
      var (r, sent) := DeliverRow(o.rows[claim.id], claim.attempt, deliverable, outcome, o.now, jitter);
      (o.(rows := o.rows[claim.id := r]), sent)
  }

  // ---------- the identity flows and the provider's lifecycle events ----------

  function EnqueueTx(o: Outbox, id: MailId): Outbox {
    if id in o.rows then o
    else o.(rows := o.rows[id := MailRow(Queued, 0, o.now, o.now, true, None)])
  }

  /** A newer challenge supersedes the old mail, failed ones included. */
  function SupersedeTx(o: Outbox, id: MailId): Outbox {
    if id in o.rows && o.rows[id].state in {Queued, Processing, MailFailed}
    then o.(rows := o.rows[id := CancelRow(o.rows[id], o.now)])
    else o
  }

  datatype Kind = KindDelivered | KindDeferred | KindBounced | KindFailed | KindRejected | KindComplained

  predicate Terminal(k: Kind) { k in {KindBounced, KindFailed, KindRejected, KindComplained} }

  function StateOf(k: Kind): MailState {
    match k
    case KindDelivered => Delivered
    case KindDeferred => Deferred
    case KindBounced => Bounced
    case KindFailed => MailFailed
    case KindRejected => Rejected
    case KindComplained => Complained
  }

  predicate Frozen(s: MailState) { s in {Cancelled, Bounced, Rejected, MailFailed, Complained} }

  /** The guarded state update of one lifecycle event. */
  function LifecycleState(s: MailState, k: Kind): MailState {
    if Frozen(s) || s == StateOf(k) || (s == Delivered && k == KindDeferred) then s else StateOf(k)
  }

  const MAX_MESSAGE_ID := 256

  predicate Known(o: Outbox, m: MessageId) {
    exists id <- o.rows.Keys :: o.rows[id].messageId == Some(m)
  }

  predicate Touched(r: MailRow, k: Kind, m: MessageId) { r.messageId == Some(m) && LifecycleState(r.state, k) != r.state }

  /** Reconcile one event: true when exactly one row changed or else the message is known at all. */
  function LifecycleTx(o: Outbox, kind: Option<Kind>, m: MessageId): (Outbox, bool) {
    if kind.None? || |m| == 0 || |m| > MAX_MESSAGE_ID then (o, false)
    else
      var k := kind.value;
      var changed := set id | id in o.rows && Touched(o.rows[id], k, m);
      var next := o.(rows := map id | id in o.rows ::
        if id in changed then o.rows[id].(state := LifecycleState(o.rows[id].state, k), updatedAt := o.now) else o.rows[id]);
      (next, |changed| == 1 || Known(next, m))
  }
}
