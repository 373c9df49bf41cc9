/** The outbox as a state machine over relay, queue dispatch, stale sweep, crashes, supersession
    and provider lifecycle events, with what holds over all of its runs. */
module EmailProtocol {
  import opened Options
  import opened EmailTables

  /** `pending` holds the claims whose delivery has not run yet; `sends` records every provider
      call by the claim it was made under. */
  datatype State = State(outbox: Outbox, pending: multiset<Claim>, sends: multiset<Claim>)

  datatype Event =
    | Tick(ms: nat)
    | Enqueue(id: MailId)
    | TakeClaim(id: MailId)
    | Deliver(claim: Claim, deliverable: bool, outcome: Outcome, jitter: real)
    | LoseClaim(claim: Claim)          // the claimer dies before its delivery transaction
    | Supersede(id: MailId)
    | Lifecycle(kind: Option<Kind>, messageId: MessageId)

  function Init(): State { State(Outbox(0, map[]), multiset{}, multiset{}) }

  function Apply(s: State, e: Event): State {
    match e
    case Tick(ms) => s.(outbox := s.outbox.(now := s.outbox.now + ms))
    case Enqueue(id) => s.(outbox := EnqueueTx(s.outbox, id))
    case TakeClaim(id) =>
      var (o, claim) := ClaimTx(s.outbox, id);
      if claim.Some? then s.(outbox := o, pending := s.pending + multiset{claim.value}) else s.(outbox := o)
    case Deliver(claim, deliverable, outcome, jitter) =>
      if claim !in s.pending || !(0.0 <= jitter <= 1.0) then s
      else
        var (o, sent) := DeliverTx(s.outbox, claim, deliverable, outcome, jitter);
        State(o, s.pending - multiset{claim}, if sent then s.sends + multiset{claim} else s.sends)
    case LoseClaim(claim) => s.(pending := s.pending - multiset{claim})
    case Supersede(id) => s.(outbox := SupersedeTx(s.outbox, id))
    case Lifecycle(kind, m) => s.(outbox := LifecycleTx(s.outbox, kind, m).0)
  }

  function Run(s: State, es: seq<Event>): State {
    if |es| == 0 then s else Apply(Run(s, es[..|es| - 1]), es[|es| - 1])
  }

  // ---------- the invariant ----------

  /** The envelope exists only while the mail may still be sent, and a provider id only once it may not. */
  ghost predicate RowOk(r: MailRow) {
    && (r.envelope ==> Pending(r))
    && (r.messageId.Some? ==> !Pending(r))
    && (r.state == Queued ==> r.attempts < MAX_ATTEMPTS)
    && (r.state == Processing ==> r.attempts > 0)
    && r.attempts <= MAX_ATTEMPTS
  }

  /** An undelivered claim is the newest one of its row, whose row nobody else can claim meanwhile. */
  ghost predicate ClaimOk(s: State, c: Claim) {
    && c.id in s.outbox.rows
    && 0 < c.attempt <= s.outbox.rows[c.id].attempts
    && s.outbox.rows[c.id].state != Queued
    && (s.outbox.rows[c.id].state == Processing ==> c.attempt == s.outbox.rows[c.id].attempts)
    && s.pending[c] == 1
    && s.sends[c] == 0
  }

  ghost predicate SendOk(s: State, c: Claim) {
    c.id in s.outbox.rows && 0 < c.attempt <= s.outbox.rows[c.id].attempts && s.sends[c] == 1
  }

  ghost predicate Inv(s: State) {
    && (forall id | id in s.outbox.rows :: RowOk(s.outbox.rows[id]))
    && (forall c | c in s.pending :: ClaimOk(s, c))
    && (forall c | c in s.sends :: SendOk(s, c))
  }

  /** One row across one step: the provider id is written once, by acceptance; a settled mail stays settled. */
  ghost predicate RowEvolves(x: MailRow, y: MailRow) {
    && x.attempts <= y.attempts
    && (x.messageId.Some? ==> y.messageId == x.messageId)
    && (!Pending(x) ==> !Pending(y) && y.attempts == x.attempts)
    && (x.messageId.None? && y.messageId.Some? ==> x.state == Processing && y.state == Accepted)
  }

  ghost predicate Evolves(a: Outbox, b: Outbox) {
    a.now <= b.now && forall id | id in a.rows :: id in b.rows && RowEvolves(a.rows[id], b.rows[id])
  }

  lemma SweepKeeps(s: State)
    requires Inv(s)
    ensures Inv(s.(outbox := SweepStale(s.outbox))) && Evolves(s.outbox, SweepStale(s.outbox))
  {
    var s' := s.(outbox := SweepStale(s.outbox));
    forall c | c in s'.pending ensures ClaimOk(s', c) { assert ClaimOk(s, c); }
    forall c | c in s'.sends ensures SendOk(s', c) { assert SendOk(s, c); }
  }

  lemma ClaimRowKeeps(s: State, id: MailId, r: MailRow)
    requires Inv(s) && id in s.outbox.rows && s.outbox.rows[id].state == Queued
    requires r.state == Processing && r.attempts == s.outbox.rows[id].attempts + 1
    requires r.envelope == s.outbox.rows[id].envelope && r.messageId == s.outbox.rows[id].messageId
    ensures Inv(State(s.outbox.(rows := s.outbox.rows[id := r]), s.pending + multiset{Claim(id, r.attempts)}, s.sends))
  {
    var claim := Claim(id, r.attempts);
    var s' := State(s.outbox.(rows := s.outbox.rows[id := r]), s.pending + multiset{claim}, s.sends);
    assert claim !in s.pending && claim !in s.sends;
    assert RowOk(s.outbox.rows[id]);
    forall c | c in s'.pending ensures ClaimOk(s', c) { if c != claim { assert c in s.pending && ClaimOk(s, c); } }
    forall c | c in s'.sends ensures SendOk(s', c) { assert SendOk(s, c); }
  }

  lemma ClaimEvolves(a: Outbox, b: Outbox, id: MailId, r: MailRow)
    requires Evolves(a, b) && id in b.rows && Pending(b.rows[id])
    requires r.attempts >= b.rows[id].attempts && r.messageId == b.rows[id].messageId
    ensures Evolves(a, b.(rows := b.rows[id := r]))
  {
    var c := b.(rows := b.rows[id := r]);
    forall i | i in a.rows ensures i in c.rows && RowEvolves(a.rows[i], c.rows[i]) { assert RowEvolves(a.rows[i], b.rows[i]); }
  }

  lemma ClaimKeeps(s: State, id: MailId)
    requires Inv(s)
    ensures Inv(Apply(s, TakeClaim(id))) && Evolves(s.outbox, Apply(s, TakeClaim(id)).outbox)
  {
    var m := s.(outbox := SweepStale(s.outbox));
    SweepKeeps(s);
    hide SweepStale, Evolves, ClaimOk, SendOk;
    hide DeliverTx, LifecycleTx, EnqueueTx, SupersedeTx;
    if Due(m.outbox, id) {
      var r := m.outbox.rows[id].(state := Processing, attempts := m.outbox.rows[id].attempts + 1, updatedAt := s.outbox.now);
      ClaimRowKeeps(m, id, r);
      assert RowOk(m.outbox.rows[id]);
      ClaimEvolves(s.outbox, m.outbox, id, r);
    }
  }

  lemma DeliveredRowOk(r: MailRow, deliverable: bool, outcome: Outcome, now: int, jitter: real, attempt: nat)
    requires RowOk(r) && 0.0 <= jitter <= 1.0 && (r.state == Processing ==> attempt == r.attempts)
    ensures var r' := DeliverRow(r, attempt, deliverable, outcome, now, jitter).0;
            && RowOk(r') && RowEvolves(r, r') && r'.attempts == r.attempts
            && (r'.state == Processing ==> r.state == Processing)
            && (r.state != Processing && r.state != Queued ==> r' == r)
  {
  }

  lemma DeliverKeeps(s: State, c: Claim, r: MailRow, sent: bool)
    requires Inv(s) && c in s.pending && c.id in s.outbox.rows
    requires RowOk(r) && r.attempts == s.outbox.rows[c.id].attempts
    requires r.state == Processing ==> s.outbox.rows[c.id].state == Processing
    requires s.outbox.rows[c.id].state != Processing && s.outbox.rows[c.id].state != Queued ==> r == s.outbox.rows[c.id]
    ensures Inv(State(s.outbox.(rows := s.outbox.rows[c.id := r]), s.pending - multiset{c}, if sent then s.sends + multiset{c} else s.sends))
  {
    var s' := State(s.outbox.(rows := s.outbox.rows[c.id := r]), s.pending - multiset{c}, if sent then s.sends + multiset{c} else s.sends);
    assert ClaimOk(s, c);
    forall d | d in s'.pending ensures ClaimOk(s', d) {
      assert d in s.pending && d != c;
      assert ClaimOk(s, d);
    }
    forall d | d in s'.sends ensures SendOk(s', d) { if d != c { assert d in s.sends && SendOk(s, d); } }
  }

  lemma TableKeeps(s: State, o: Outbox)
    requires Inv(s)
    requires forall id | id in s.outbox.rows :: id in o.rows
               && o.rows[id].attempts == s.outbox.rows[id].attempts
               && (s.outbox.rows[id].state != Queued ==> o.rows[id].state != Queued)
               && (o.rows[id].state == Processing ==> s.outbox.rows[id].state == Processing)
    requires forall id | id in o.rows :: RowOk(o.rows[id])
    ensures Inv(s.(outbox := o))
  {
    var s' := s.(outbox := o);
    forall c | c in s'.pending ensures ClaimOk(s', c) { assert ClaimOk(s, c); }
    forall c | c in s'.sends ensures SendOk(s', c) { assert SendOk(s, c); }
  }

  lemma LifecycleKeeps(s: State, kind: Option<Kind>, m: MessageId)
    requires Inv(s)
    ensures var o := LifecycleTx(s.outbox, kind, m).0; Inv(s.(outbox := o)) && Evolves(s.outbox, o)
  {
    hide ClaimOk, SendOk, Known;
    TableKeeps(s, LifecycleTx(s.outbox, kind, m).0);
  }

  lemma DeliverShape(s: State, c: Claim, deliverable: bool, outcome: Outcome, jitter: real, r: MailRow, sent: bool)
    requires c in s.pending && 0.0 <= jitter <= 1.0 && c.id in s.outbox.rows
    requires (r, sent) == DeliverRow(s.outbox.rows[c.id], c.attempt, deliverable, outcome, s.outbox.now, jitter)
    ensures Apply(s, Deliver(c, deliverable, outcome, jitter))
            == State(s.outbox.(rows := s.outbox.rows[c.id := r]), s.pending - multiset{c}, if sent then s.sends + multiset{c} else s.sends)
  {
  }

  lemma DeliverEventKeeps(s: State, c: Claim, deliverable: bool, outcome: Outcome, jitter: real)
    requires Inv(s) && c in s.pending && 0.0 <= jitter <= 1.0
    ensures Inv(Apply(s, Deliver(c, deliverable, outcome, jitter)))
    ensures Evolves(s.outbox, Apply(s, Deliver(c, deliverable, outcome, jitter)).outbox)
  {
    assert ClaimOk(s, c);
    var (r, sent) := DeliverRow(s.outbox.rows[c.id], c.attempt, deliverable, outcome, s.outbox.now, jitter);
    DeliveredRowOk(s.outbox.rows[c.id], deliverable, outcome, s.outbox.now, jitter, c.attempt);
    DeliverShape(s, c, deliverable, outcome, jitter, r, sent);
    DeliverKeeps(s, c, r, sent);
  }

  lemma LoseClaimKeeps(s: State, claim: Claim)
    requires Inv(s)
    ensures Inv(s.(pending := s.pending - multiset{claim}))
  {
    var s' := s.(pending := s.pending - multiset{claim});
    forall c | c in s'.pending ensures ClaimOk(s', c) { assert ClaimOk(s, c); }
    forall c | c in s'.sends ensures SendOk(s', c) { assert SendOk(s, c); }
  }

  lemma OtherTxKeeps(s: State, o: Outbox, id: MailId)
    requires Inv(s)
    requires o == EnqueueTx(s.outbox, id) || o == SupersedeTx(s.outbox, id) || (o.rows == s.outbox.rows && o.now >= s.outbox.now)
    ensures Inv(s.(outbox := o)) && Evolves(s.outbox, o)
  {
    TableKeeps(s, o);
  }

  /** The invariant is inductive, and every event evolves the rows. */
  lemma StepKeeps(s: State, e: Event)
    requires Inv(s)
    ensures Inv(Apply(s, e)) && Evolves(s.outbox, Apply(s, e).outbox)
  {
    hide Inv;
    match e {
      case TakeClaim(id) => ClaimKeeps(s, id);
      case Deliver(c, deliverable, outcome, jitter) =>
        if c in s.pending && 0.0 <= jitter <= 1.0 { DeliverEventKeeps(s, c, deliverable, outcome, jitter); }
      case LoseClaim(claim) => LoseClaimKeeps(s, claim);
      case Lifecycle(kind, m) => LifecycleKeeps(s, kind, m);
      case Tick(ms) => OtherTxKeeps(s, s.outbox.(now := s.outbox.now + ms), 0);
      case Enqueue(id) => OtherTxKeeps(s, EnqueueTx(s.outbox, id), id);
      case Supersede(id) => OtherTxKeeps(s, SupersedeTx(s.outbox, id), id);
    }
  }

  lemma {:induction false} RunKeeps(es: seq<Event>)
    ensures Inv(Run(Init(), es))
  {
    if |es| > 0 {
      RunKeeps(es[..|es| - 1]);
      StepKeeps(Run(Init(), es[..|es| - 1]), es[|es| - 1]);
    }
  }

  lemma {:induction false} RunConcat(s: State, xs: seq<Event>, ys: seq<Event>)
    ensures Run(s, xs + ys) == Run(Run(s, xs), ys)
  {
    if |ys| == 0 {
      assert xs + ys == xs;
    } else {
      assert (xs + ys)[..|xs + ys| - 1] == xs + ys[..|ys| - 1];
      RunConcat(s, xs, ys[..|ys| - 1]);
    }
  }

  // ---------- theorems over every run ----------

  function ClaimsOf(id: MailId, n: nat): set<Claim> { set k | 0 < k <= n :: Claim(id, k) }

  lemma {:induction false} ClaimsOfSize(id: MailId, n: nat)
    ensures |ClaimsOf(id, n)| == n
  {
    if n == 0 {
      assert ClaimsOf(id, 0) == {};
    } else {
      ClaimsOfSize(id, n - 1);
      assert ClaimsOf(id, n) == ClaimsOf(id, n - 1) + {Claim(id, n)};
    }
  }

  lemma SubsetSize<T>(a: set<T>, b: set<T>)
    requires a <= b
    ensures |a| <= |b|
  {
    if a != {} {
      var x :| x in a;
      SubsetSize(a - {x}, b - {x});
    }
  }

  /** Every claim leads to at most one provider call, and the calls for a mail never exceed its
      attempt count, which never exceeds eight. */
  lemma SendsAreBounded(es: seq<Event>, id: MailId)
    requires id in Run(Init(), es).outbox.rows
    ensures var s := Run(Init(), es);
            && (forall c :: s.sends[c] <= 1)
            && |set c | c in s.sends && c.id == id| <= s.outbox.rows[id].attempts <= MAX_ATTEMPTS
  {
    RunKeeps(es);
    var s := Run(Init(), es);
    var n := s.outbox.rows[id].attempts;
    var sent := set c | c in s.sends && c.id == id;
    assert RowOk(s.outbox.rows[id]);
    forall c | c in sent ensures c in ClaimsOf(id, n) { assert SendOk(s, c) && c == Claim(id, c.attempt); }
    ClaimsOfSize(id, n);
    SubsetSize(sent, ClaimsOf(id, n));
    forall c ensures s.sends[c] <= 1 { if c in s.sends { assert SendOk(s, c); } }
  }

  /** Every provider call happens on a processing row whose current claim is the caller's own, and
      that claim has not sent before. */
  lemma SendsAreClaimed(es: seq<Event>, c: Claim, deliverable: bool, outcome: Outcome, jitter: real)
    requires c in Run(Init(), es).pending && 0.0 <= jitter <= 1.0
    requires DeliverTx(Run(Init(), es).outbox, c, deliverable, outcome, jitter).1
    ensures var s := Run(Init(), es);
            && c.id in s.outbox.rows && s.outbox.rows[c.id].state == Processing
            && s.outbox.rows[c.id].attempts == c.attempt && s.sends[c] == 0 && s.pending[c] == 1
  {
    RunKeeps(es);
    assert ClaimOk(Run(Init(), es), c);
  }

  /** The row invariant of the outbox, in every reachable state. */
  lemma RowsAreSound(es: seq<Event>, id: MailId)
    requires id in Run(Init(), es).outbox.rows
    ensures var r := Run(Init(), es).outbox.rows[id];
            && (r.envelope ==> r.state == Queued || r.state == Processing)
            && (r.messageId.Some? ==> r.state != Queued && r.state != Processing)
            && (r.state == Queued ==> forall k :: Claim(id, k) !in Run(Init(), es).pending)
  {
    RunKeeps(es);
    var s := Run(Init(), es);
    assert RowOk(s.outbox.rows[id]);
    forall k | Claim(id, k) in s.pending ensures s.outbox.rows[id].state != Queued { assert ClaimOk(s, Claim(id, k)); }
  }

  /** A provider id appears only when a delivery under the row's own claim is accepted, and then it is
      the id of that acceptance. */
  lemma IdOnlyByAcceptance(es: seq<Event>, e: Event, id: MailId)
    requires var s := Run(Init(), es);
             id in Apply(s, e).outbox.rows && Apply(s, e).outbox.rows[id].messageId.Some?
             && !(id in s.outbox.rows && s.outbox.rows[id].messageId.Some?)
    ensures var s := Run(Init(), es);
            && e.Deliver? && e.claim.id == id && e.claim in s.pending && e.deliverable && id in s.outbox.rows
            && s.outbox.rows[id].state == Processing && s.outbox.rows[id].attempts == e.claim.attempt
            && e.outcome == SendAccepted(Apply(s, e).outbox.rows[id].messageId.value)
            && Apply(s, e).outbox.rows[id].state == Accepted
  {
    RunKeeps(es);
    var s := Run(Init(), es);
    hide Run, DeliverTx;
    if e.Deliver? && e.claim in s.pending && 0.0 <= e.jitter <= 1.0 {
      assert ClaimOk(s, e.claim);
      hide Inv, ClaimOk;
      DeliveryId(s.outbox, e.claim, e.deliverable, e.outcome, e.jitter, id);
    } else {
      OthersKeepId(s, e, id);
    }
  }

  lemma DeliveryId(o: Outbox, claim: Claim, deliverable: bool, outcome: Outcome, jitter: real, id: MailId)
    requires 0.0 <= jitter <= 1.0
    ensures var o' := DeliverTx(o, claim, deliverable, outcome, jitter).0;
            && o'.rows.Keys == o.rows.Keys
            && (id in o.rows ==>
                  || o'.rows[id].messageId == o.rows[id].messageId
                  || (claim.id == id && deliverable && o.rows[id].state == Processing && o'.rows[id].state == Accepted
                      && outcome.SendAccepted? && o'.rows[id].messageId == Some(outcome.messageId)))
  {
    hide NextMailState;
  }

  lemma OthersKeepId(s: State, e: Event, id: MailId)
    requires e.Deliver? ==> Apply(s, e) == s
    requires id in Apply(s, e).outbox.rows
    ensures Apply(s, e).outbox.rows[id].messageId == if id in s.outbox.rows then s.outbox.rows[id].messageId else None
  {
    hide DeliverTx, LifecycleState;
  }

  ghost predicate Settled(s: State, id: MailId) { id in s.outbox.rows && !Pending(s.outbox.rows[id]) }

  lemma SettledStep(s: State, e: Event, id: MailId)
    requires Inv(s) && Settled(s, id)
    ensures Settled(Apply(s, e), id)
    ensures forall k :: Apply(s, e).sends[Claim(id, k)] == s.sends[Claim(id, k)]
    ensures s.outbox.rows[id].messageId.Some? ==> Apply(s, e).outbox.rows[id].messageId == s.outbox.rows[id].messageId
  {
    StepKeeps(s, e);
    assert RowEvolves(s.outbox.rows[id], Apply(s, e).outbox.rows[id]);
  }

  lemma {:induction false} SettledRun(s: State, es: seq<Event>, id: MailId)
    requires Inv(s) && Settled(s, id)
    ensures Inv(Run(s, es)) && Settled(Run(s, es), id)
    ensures forall k :: Run(s, es).sends[Claim(id, k)] == s.sends[Claim(id, k)]
    ensures s.outbox.rows[id].messageId.Some? ==> Run(s, es).outbox.rows[id].messageId == s.outbox.rows[id].messageId
  {
    if |es| > 0 {
      var m := Run(s, es[..|es| - 1]);
      SettledRun(s, es[..|es| - 1], id);
      StepKeeps(m, es[|es| - 1]);
      SettledStep(m, es[|es| - 1], id);
    }
  }

  /** An accepted, failed or cancelled mail is never sent again, whatever happens later, and its
      provider id never changes. */
  lemma NeverSentAgain(es: seq<Event>, later: seq<Event>, id: MailId)
    requires Settled(Run(Init(), es), id)
    ensures var a, b := Run(Init(), es), Run(Init(), es + later);
            && Settled(b, id)
            && (forall k :: b.sends[Claim(id, k)] == a.sends[Claim(id, k)])
            && (a.outbox.rows[id].messageId.Some? ==> b.outbox.rows[id].messageId == a.outbox.rows[id].messageId)
  {
    RunKeeps(es);
    RunConcat(Init(), es, later);
    SettledRun(Run(Init(), es), later, id);
  }
}
