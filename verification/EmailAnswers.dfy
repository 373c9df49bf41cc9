/** What the outbox's operations answer, in every reachable state: the row, the claim and the provider call
    that each leaves. Everything is said of rows. */
module EmailAnswers {
  import opened Options
  import opened EmailTables
  import opened EmailProtocol

  /** Everything else of the outbox stays as it was. */
  ghost predicate OnlyRow(s: State, id: MailId, s': State) {
    && id in s'.outbox.rows && s'.outbox == s.outbox.(rows := s.outbox.rows[id := s'.outbox.rows[id]])
  }

  // ---------- retry ----------

  /** The wait after the n-th attempt: half a minute after the first, twice as long after each further one,
      and never more than six hours. */
  function Wait(n: nat): nat {
    if n <= 1 then 30_000 else if 2 * Wait(n - 1) < 21_600_000 then 2 * Wait(n - 1) else 21_600_000
  }

  lemma {:induction false} WaitIsDelay(n: nat)
    ensures Wait(n) == Delay(n)
  {
    if n > 1 { WaitIsDelay(n - 1); }
  }

  function Stretch(d: nat, jitter: real): int { (d as real * 0.2 * jitter).Floor }

  lemma StretchBounds(d: nat, jitter: real)
    requires 0.0 <= jitter <= 1.0
    ensures 0 <= Stretch(d, jitter) && (d + Stretch(d, jitter)) as real <= 1.2 * d as real
    ensures jitter == 0.0 ==> Stretch(d, jitter) == 0
    ensures jitter == 1.0 ==> Stretch(d, jitter) == d / 5
  {
    var x := d as real * 0.2;
    assert 0.0 <= x * jitter <= x;
    FullStretch(d);
  }

  lemma FullStretch(d: nat)
    ensures (d as real * 0.2).Floor == d / 5
  {
    var q, r := d / 5, d % 5;
    assert d as real == 5.0 * q as real + r as real;
    assert d as real * 0.2 == q as real + r as real * 0.2;
  }

  /** The row after its delivery failed: queued again after the wait, stretched by at most a fifth, if the
      failure may pass and attempts are left; else failed for good, its envelope gone. */
  ghost predicate FailureRow(r: MailRow, attempt: nat, category: Category, now: int, jitter: real, r': MailRow) {
    && (r'.state == Queued <==> category == Transient && attempt < 8)
    && (r'.state != Queued ==> r'.state == MailFailed && !r'.envelope && r'.nextAttemptAt == r.nextAttemptAt)
    && (r'.state == Queued ==>
          && r'.envelope == r.envelope && Wait(attempt) <= r'.nextAttemptAt - now
          && (r'.nextAttemptAt - now) as real <= 1.2 * Wait(attempt) as real
          && (jitter == 0.0 ==> r'.nextAttemptAt == now + Wait(attempt))
          && (jitter == 1.0 ==> r'.nextAttemptAt == now + Wait(attempt) + Wait(attempt) / 5))
    && r'.updatedAt == now && r'.attempts == r.attempts && r'.messageId == r.messageId
  }

  lemma FailureTells(r: MailRow, attempt: nat, category: Category, now: int, jitter: real)
    requires r.state == Processing && 0.0 <= jitter <= 1.0
    ensures FailureRow(r, attempt, category, now, jitter, MarkFailure(r, attempt, category, now, jitter))
  {
    WaitIsDelay(attempt);
    StretchBounds(Delay(attempt), jitter);
    assert MarkFailure(r, attempt, category, now, jitter).state == Queued ==>
      MarkFailure(r, attempt, category, now, jitter).nextAttemptAt == now + Delay(attempt) + Stretch(Delay(attempt), jitter);
    hide Delay, Wait, Stretch;
  }

  /** A mail in hand whose account and challenge still stand. */
  ghost predicate InHand(s: State, c: Claim) { c in s.pending && c.id in s.outbox.rows && s.outbox.rows[c.id].state == Processing }

  /** A failed delivery, in every reachable state. The provider was called exactly when the failure came
      from it; the claim is over either way. */
  lemma FailureExactly(es: seq<Event>, c: Claim, category: Category, sent: bool, jitter: real)
    requires InHand(Run(Init(), es), c) && 0.0 <= jitter <= 1.0
    ensures var s := Run(Init(), es);
            var s' := Apply(s, Deliver(c, true, if sent then SendFails(category) else RenderFails(category), jitter));
            && OnlyRow(s, c.id, s') && s'.pending == s.pending - multiset{c} && s'.sends[c] == (if sent then 1 else 0)
            && c.attempt == s.outbox.rows[c.id].attempts
            && FailureRow(s.outbox.rows[c.id], c.attempt, category, s.outbox.now, jitter, s'.outbox.rows[c.id])
  {
    var s := Run(Init(), es);
    RunKeeps(es);
    assert ClaimOk(s, c);
    FailureTells(s.outbox.rows[c.id], c.attempt, category, s.outbox.now, jitter);
    hide Run, Inv, FailureRow, MarkFailure;
  }

  // ---------- the other ends of a delivery ----------

  /** An accepted delivery. */
  lemma AcceptedExactly(es: seq<Event>, c: Claim, m: MessageId, jitter: real)
    requires InHand(Run(Init(), es), c) && 0.0 <= jitter <= 1.0
    ensures var s := Run(Init(), es);
            var s' := Apply(s, Deliver(c, true, SendAccepted(m), jitter));
            && s'.outbox == s.outbox.(rows := s.outbox.rows[c.id := s.outbox.rows[c.id].(
                 state := Accepted, messageId := Some(m), envelope := false, updatedAt := s.outbox.now)])
            && s'.pending == s.pending - multiset{c} && s'.sends == s.sends + multiset{c}
  {
    hide Run, MarkFailure;
  }

  lemma CrashTells(s: State, c: Claim, sent: bool, jitter: real)
    requires InHand(s, c) && 0.0 <= jitter <= 1.0
    ensures var s' := Apply(s, Deliver(c, true, if sent then SendThenCrash else CrashFirst, jitter));
            s'.outbox == s.outbox && s'.pending == s.pending - multiset{c} && s'.sends == if sent then s.sends + multiset{c} else s.sends
  {
    assert s.outbox.rows[c.id := s.outbox.rows[c.id]] == s.outbox.rows;
    hide MarkFailure;
  }

  /** A delivery that dies: the row is as it was, whether or not the provider was called. */
  lemma CrashExactly(es: seq<Event>, c: Claim, sent: bool, jitter: real)
    requires InHand(Run(Init(), es), c) && 0.0 <= jitter <= 1.0
    ensures var s := Run(Init(), es);
            var s' := Apply(s, Deliver(c, true, if sent then SendThenCrash else CrashFirst, jitter));
            s'.outbox == s.outbox && s'.pending == s.pending - multiset{c} && s'.sends == if sent then s.sends + multiset{c} else s.sends
  {
    var s := Run(Init(), es);
    hide Run;
    CrashTells(s, c, sent, jitter);
  }

  /** Whatever the outcome would be, nothing is sent for a mail that is not processing or no longer wanted:
      an unsettled one is cancelled and its envelope dropped, a settled one stays as it is. */
  lemma UnwantedExactly(es: seq<Event>, c: Claim, deliverable: bool, outcome: Outcome, jitter: real)
    requires var s := Run(Init(), es); c in s.pending && 0.0 <= jitter <= 1.0 && !(InHand(s, c) && deliverable)
    ensures var s := Run(Init(), es);
            var s' := Apply(s, Deliver(c, deliverable, outcome, jitter));
            && c.id in s.outbox.rows && OnlyRow(s, c.id, s') && s'.sends == s.sends && s'.pending == s.pending - multiset{c}
            && var r, r' := s.outbox.rows[c.id], s'.outbox.rows[c.id];
               if r.state == Processing then r' == r.(state := Cancelled, updatedAt := s.outbox.now, envelope := false) else r' == r
  {
    var s := Run(Init(), es);
    RunKeeps(es);
    assert ClaimOk(s, c);
    hide Run, Inv, MarkFailure;
  }

  // ---------- claiming ----------

  /** A mail that has been processing for more than five minutes. */
  ghost predicate Stale(o: Outbox, id: MailId) {
    id in o.rows && o.rows[id].state == Processing && o.now - o.rows[id].updatedAt > 300_000
  }

  ghost predicate Waiting(o: Outbox, id: MailId) { id in o.rows && o.rows[id].state == Queued && o.rows[id].nextAttemptAt <= o.now }

  /** Stale mails fail for good, the picked mail is taken exactly when it waits and is due, under its next
      attempt, and no other mail moves. */
  lemma TakeExactly(s: State, id: MailId)
    ensures var s' := Apply(s, TakeClaim(id));
            && s'.sends == s.sends && s'.outbox.now == s.outbox.now && s'.outbox.rows.Keys == s.outbox.rows.Keys
            && s'.pending == (if Waiting(s.outbox, id) then s.pending + multiset{Claim(id, s.outbox.rows[id].attempts + 1)} else s.pending)
            && forall j | j in s.outbox.rows ::
                 var r, r' := s.outbox.rows[j], s'.outbox.rows[j];
                 if Stale(s.outbox, j) then r' == r.(state := MailFailed, updatedAt := s.outbox.now, envelope := false)
                 else if j == id && Waiting(s.outbox, id)
                 then r' == r.(state := Processing, attempts := r.attempts + 1, updatedAt := s.outbox.now)
                 else r' == r
  {
    SweepTells(s.outbox);
    hide SweepStale, Stale;
  }

  lemma SweepTells(o: Outbox)
    ensures var swept := SweepStale(o);
            && swept.now == o.now && swept.rows.Keys == o.rows.Keys
            && forall j | j in o.rows :: swept.rows[j] ==
                 if Stale(o, j) then o.rows[j].(state := MailFailed, updatedAt := o.now, envelope := false) else o.rows[j]
    ensures forall j | j in o.rows && o.rows[j].state != Processing :: !Stale(o, j)
  {
  }

  // ---------- the identity flows and the provider's events ----------

  /** A new mail is due at once; a newer challenge cancels an unsettled or failed mail. */
  lemma IdentityExactly(s: State, id: MailId)
    ensures var queued, cancelled := Apply(s, Enqueue(id)), Apply(s, Supersede(id));
            && (id in s.outbox.rows ==> queued == s)
            && (id !in s.outbox.rows ==> queued == s.(outbox := s.outbox.(rows := s.outbox.rows[id :=
                  MailRow(Queued, 0, s.outbox.now, s.outbox.now, true, None)])))
            && (if id in s.outbox.rows && s.outbox.rows[id].state in {Queued, Processing, MailFailed}
                then cancelled == s.(outbox := s.outbox.(rows := s.outbox.rows[id :=
                       s.outbox.rows[id].(state := Cancelled, updatedAt := s.outbox.now, envelope := false)]))
                else cancelled == s)
  {
  }

  /** What an event makes of a mail's state: final states stay, a delivered mail is no longer deferred. */
  ghost predicate Moves(a: MailState, k: Kind, b: MailState) {
    if a in {Cancelled, Bounced, Rejected, MailFailed, Complained} || (a == Delivered && k == KindDeferred) then b == a
    else
      match k
      case KindDelivered => b == Delivered
      case KindDeferred => b == Deferred
      case KindBounced => b == Bounced
      case KindFailed => b == MailFailed
      case KindRejected => b == Rejected
      case KindComplained => b == Complained
  }

  /** A well-formed event moves the mails of its message and no other; nothing but state and time changes. */
  lemma LifecycleExactly(s: State, k: Kind, m: MessageId)
    ensures var s' := Apply(s, Lifecycle(Some(k), m));
            && s'.pending == s.pending && s'.sends == s.sends && s'.outbox.now == s.outbox.now && s'.outbox.rows.Keys == s.outbox.rows.Keys
            && forall j | j in s.outbox.rows ::
                 var r, r' := s.outbox.rows[j], s'.outbox.rows[j];
                 if r.messageId == Some(m) && 0 < |m| <= 256
                 then Moves(r.state, k, r'.state) && r' == r.(state := r'.state, updatedAt := if r'.state == r.state then r.updatedAt else s.outbox.now)
                 else r' == r
    ensures Apply(s, Lifecycle(None, m)) == s
  {
  }

  // ---------- runs ----------

  const FIRST := Claim(0, 1)

  function Refused(category: Category): seq<Event> { [Enqueue(0), TakeClaim(0), Deliver(FIRST, true, SendFails(category), 0.0)] }

  /** A first attempt refused: a passing failure queues the mail for half a minute later with its envelope,
      any other ends it. */
  lemma RefusedRun(category: Category)
    ensures var s := Run(Init(), Refused(category));
            && s.outbox.rows == map[0 := if category == Transient then MailRow(Queued, 1, 30_000, 0, true, None) else MailRow(MailFailed, 1, 0, 0, false, None)]
            && s.sends == multiset{FIRST} && s.pending == multiset{}
  {
    var es := Refused(category);
    assert es[..2] == [Enqueue(0), TakeClaim(0)] && es[..2][..1] == [Enqueue(0)] && [Enqueue(0)][..0] == [];
    assert Run(Init(), [Enqueue(0)]) == Apply(Run(Init(), []), Enqueue(0));
    var s1 := State(Outbox(0, map[0 := MailRow(Queued, 0, 0, 0, true, None)]), multiset{}, multiset{});
    assert Run(Init(), [Enqueue(0)]) == s1;
    var r := MailRow(Processing, 1, 0, 0, true, None);
    var s2 := State(Outbox(0, map[0 := r]), multiset{FIRST}, multiset{});
    Taken();
    assert Run(Init(), es[..2]) == s2;
    FailureTells(r, 1, category, 0, 0.0);
    assert Wait(1) == 30_000;
    assert s2.pending - multiset{FIRST} == multiset{};
  }

  lemma Taken()
    ensures Apply(State(Outbox(0, map[0 := MailRow(Queued, 0, 0, 0, true, None)]), multiset{}, multiset{}), TakeClaim(0))
            == State(Outbox(0, map[0 := MailRow(Processing, 1, 0, 0, true, None)]), multiset{FIRST}, multiset{})
  {
    var o := Outbox(0, map[0 := MailRow(Queued, 0, 0, 0, true, None)]);
    assert SweepStale(o) == o;
  }
}
