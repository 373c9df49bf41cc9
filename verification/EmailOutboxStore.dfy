/** The outbox table as the jobs Worker changes it in place. Every method is one transaction and is
    equated with one event of the protocol; the relay loop is proved to be a run of the protocol. */
module EmailOutboxStore {
  import opened Options
  import opened EmailTables
  import opened EmailProtocol

  /** What the database and the provider decide for one turn of the relay. */
  datatype Turn = Turn(id: MailId, deliverable: bool, outcome: Outcome, jitter: real)

  const RELAY_TURNS := 25

  lemma DeliverIs(s: State, claim: Claim, deliverable: bool, outcome: Outcome, jitter: real)
    requires claim in s.pending && 0.0 <= jitter <= 1.0
    ensures var (o, sent) := DeliverTx(s.outbox, claim, deliverable, outcome, jitter);
            Apply(s, Deliver(claim, deliverable, outcome, jitter))
            == State(o, s.pending - multiset{claim}, if sent then s.sends + multiset{claim} else s.sends)
  {
    hide DeliverTx, ClaimTx, LifecycleTx, EnqueueTx, SupersedeTx;
  }

  /** A mail that waits and is due. */
  predicate DueNow(o: Outbox, id: MailId) { id in o.rows && o.rows[id].state == Queued && o.rows[id].nextAttemptAt <= o.now }

  /** The next claim of a mail. */
  function NextClaim(o: Outbox, id: MailId): Claim { Claim(id, if id in o.rows then o.rows[id].attempts + 1 else 1) }

  /** Claim the picked mail, and deliver it under its next attempt if it was due. */
  function TurnEvents(s: State, t: Turn): seq<Event> {
    if DueNow(s.outbox, t.id)
    then [TakeClaim(t.id), Deliver(NextClaim(s.outbox, t.id), t.deliverable, t.outcome, t.jitter)]
    else [TakeClaim(t.id)]
  }

  /** Turn by turn, until a turn finds nothing due. */
  function RelayEvents(s: State, turns: seq<Turn>): seq<Event>
    decreases |turns|
  {
    if |turns| == 0 then []
    else if !DueNow(s.outbox, turns[0].id) then TurnEvents(s, turns[0])
    else TurnEvents(s, turns[0]) + RelayEvents(Run(s, TurnEvents(s, turns[0])), turns[1..])
  }

  /** The loop takes at most 25 turns. */
  function FirstTurns(turns: seq<Turn>): seq<Turn> { if |turns| <= 25 then turns else turns[..25] }

  lemma FirstTurnsAre(turns: seq<Turn>)
    ensures var taken := FirstTurns(turns);
            && |taken| == (if |turns| <= RELAY_TURNS then |turns| else RELAY_TURNS) && taken[0..] == taken
            && (forall i | 0 <= i < |taken| :: taken[i] == turns[i])
  {
  }

  lemma NothingLeft(s: State)
    ensures RelayEvents(s, []) == [] && Run(s, []) == s
  {
  }

  lemma RelayStep(s: State, turns: seq<Turn>, i: nat)
    requires i < |turns|
    ensures var es := TurnEvents(s, turns[i]);
            RelayEvents(s, turns[i..]) == es + if DueNow(s.outbox, turns[i].id) then RelayEvents(Run(s, es), turns[i + 1..]) else []
  {
    hide TurnEvents, Run;
    assert turns[i..][0] == turns[i] && turns[i..][1..] == turns[i + 1..];
  }

  /** A turn is a stretch of a run; it keeps the invariant, leaves the pending claims as they were and makes
      at most one provider call. */
  lemma TurnRuns(s: State, t: Turn)
    requires Inv(s) && 0.0 <= t.jitter <= 1.0
    ensures var s1 := Apply(s, TakeClaim(t.id));
            var s2 := if DueNow(s.outbox, t.id)
                      then Apply(s1, Deliver(NextClaim(s.outbox, t.id), t.deliverable, t.outcome, t.jitter)) else s1;
            Run(s, TurnEvents(s, t)) == s2 && Inv(s2) && s2.pending == s.pending && |s2.sends| <= |s.sends| + 1
  {
    var first := TakeClaim(t.id);
    ClaimsWhenDue(s.outbox, t.id);
    ClaimTaken(s, t.id);
    hide Apply, Run, Inv, DueNow, ClaimTx, Evolves, NextClaim;
    StepKeeps(s, first);
    RunOneOrTwo(s, first, first);
    if DueNow(s.outbox, t.id) {
      var claim := NextClaim(s.outbox, t.id);
      var e := Deliver(claim, t.deliverable, t.outcome, t.jitter);
      StepKeeps(Apply(s, first), e);
      RunOneOrTwo(s, first, e);
      ClaimThenDeliver(s, claim, e);
    }
  }

  lemma RunOneOrTwo(s: State, a: Event, b: Event)
    ensures Run(s, [a]) == Apply(s, a) && Run(s, [a, b]) == Apply(Apply(s, a), b)
  {
    hide Apply;
    assert [a][..0] == [] && [a, b][..1] == [a];
    assert Run(s, [a][..0]) == s;
  }

  lemma ClaimTaken(s: State, id: MailId)
    requires Inv(s)
    ensures var s', claim := Apply(s, TakeClaim(id)), ClaimTx(s.outbox, id).1;
            && (claim.Some? ==> claim.value in s'.pending && claim.value.id in s'.outbox.rows && claim.value.id == id)
            && (claim.None? ==> s'.pending == s.pending)
            && s'.sends == s.sends
  {
    hide SweepStale;
  }

  lemma ClaimsWhenDue(o: Outbox, id: MailId)
    ensures var claim := ClaimTx(o, id).1;
            if DueNow(o, id) then claim == Some(NextClaim(o, id)) else claim.None?
  {
  }

  class Store {
    var now: int
    var rows: map<MailId, MailRow>
    ghost var pending: multiset<Claim>
    ghost var sends: multiset<Claim>

    ghost function View(): State
      reads this
    {
      State(Outbox(now, rows), pending, sends)
    }

    constructor ()
      ensures View() == Init()
    {
      now, rows := 0, map[];
      pending, sends := multiset{}, multiset{};
    }

    /** `claimTransactionalEmails`: stale rows fail, then the picked row is taken if it is due. */
    method ClaimTransaction(id: MailId) returns (claim: Option<Claim>)
      modifies this`rows
      ensures (Outbox(now, rows), claim) == ClaimTx(Outbox(now, old(rows)), id)
    {
      rows := map i | i in rows :: if StaleRow(rows[i], now) then FailedRow(rows[i], now) else rows[i];
      claim := None;
      if id in rows && rows[id].state == Queued && rows[id].nextAttemptAt <= now {
        var attempts := rows[id].attempts + 1;
        rows := rows[id := rows[id].(state := Processing, attempts := attempts, updatedAt := now)];
        claim := Some(Claim(id, attempts));
      }
    }

    /** The committed claim is the claimer's to deliver. */
    method ClaimMail(id: MailId) returns (claim: Option<Claim>)
      modifies this
      ensures View() == Apply(old(View()), TakeClaim(id))
      ensures claim == ClaimTx(old(View()).outbox, id).1
    {
      hide DeliverTx, ClaimTx, LifecycleTx, EnqueueTx, SupersedeTx;
      claim := ClaimTransaction(id);
      if claim.Some? { pending := pending + multiset{claim.value}; }
    }

    /** `markEmailFailure`, which only touches a processing row. */
    method MarkEmailFailure(claim: Claim, category: Category, jitter: real)
      requires claim.id in rows && 0.0 <= jitter <= 1.0
      modifies this`rows
      ensures rows == old(rows)[claim.id := MarkFailure(old(rows)[claim.id], claim.attempt, category, now, jitter)]
    {
      var r := rows[claim.id];
      if r.state == Processing {
        var (state, at) := NextMailState(category, claim.attempt, now, jitter);
        r := r.(state := state, updatedAt := now);
        if at.Some? { r := r.(nextAttemptAt := at.value); }
        if state == MailFailed { r := r.(envelope := false); }
        rows := rows[claim.id := r];
      }
    }

    /** `deliverClaimedEmail`: lock and recheck the row, render, send, record. */
    method DeliverTransaction(claim: Claim, deliverable: bool, outcome: Outcome, jitter: real) returns (sent: bool)
      requires claim.id in rows && 0.0 <= jitter <= 1.0
      modifies this`rows
      ensures (Outbox(now, rows), sent) == DeliverTx(Outbox(now, old(rows)), claim, deliverable, outcome, jitter)
    {
      hide NextMailState, MarkFailure;
      sent := false;
      var r := rows[claim.id];
      if r.state != Processing || !deliverable {
        if r.state == Queued || r.state == Processing {
          rows := rows[claim.id := r.(state := Cancelled, updatedAt := now, envelope := false)];
        } else {
          assert rows[claim.id := r] == rows;
        }
        return;
      }
      if outcome.RenderFails? {
        MarkEmailFailure(claim, outcome.category, jitter);
        return;
      }
      if outcome.CrashFirst? {
        assert rows[claim.id := r] == rows;
        return;
      }
      sent := true;
      if outcome.SendFails? {
        MarkEmailFailure(claim, outcome.category, jitter);
      } else if outcome.SendAccepted? {
        rows := rows[claim.id := r.(state := Accepted, messageId := Some(outcome.messageId), envelope := false, updatedAt := now)];
      } else {
        assert rows[claim.id := r] == rows;
      }
    }

    /** A delivery uses up its claim and records the provider call it made. */
    method DeliverClaimed(claim: Claim, deliverable: bool, outcome: Outcome, jitter: real)
      requires claim in pending && claim.id in rows && 0.0 <= jitter <= 1.0
      modifies this
      ensures View() == Apply(old(View()), Deliver(claim, deliverable, outcome, jitter))
    {
      hide DeliverTx;
      var sent := DeliverTransaction(claim, deliverable, outcome, jitter);
      ghost var o := Outbox(now, rows);
      ghost var was := old(View());
      assert (o, sent) == DeliverTx(was.outbox, claim, deliverable, outcome, jitter);
      pending := pending - multiset{claim};
      if sent { sends := sends + multiset{claim}; }
      assert View() == State(o, was.pending - multiset{claim}, if sent then was.sends + multiset{claim} else was.sends);
      DeliverIs(was, claim, deliverable, outcome, jitter);
      hide Apply;
    }

    /** One turn of the relay: claim, and deliver what was claimed. */
    method RelayTurn(t: Turn) returns (more: bool, ghost es: seq<Event>)
      requires Inv(View()) && 0.0 <= t.jitter <= 1.0
      modifies this
      ensures View() == Run(old(View()), es) && es == TurnEvents(old(View()), t) && (more <==> DueNow(old(View()).outbox, t.id))
      ensures Inv(View()) && pending == old(pending) && |sends| <= |old(sends)| + 1
    {
      ghost var start := View();
      es := TurnEvents(start, t);
      TurnRuns(start, t);
      ClaimsWhenDue(start.outbox, t.id);
      ClaimTaken(start, t.id);
      hide Inv, Run, DueNow, Apply, ClaimTx, TurnEvents, NextClaim;
      var claim := ClaimMail(t.id);
      more := claim.Some?;
      if more { DeliverClaimed(claim.value, t.deliverable, t.outcome, t.jitter); }
    }

    /** `relayTransactionalEmailOutbox`: claim and deliver, until nothing is due or 25 turns are over.
        The whole loop is this run of the protocol, makes at most one provider call per turn and leaves
        no claim of its own behind. */
    method Relay(turns: seq<Turn>) returns (ghost es: seq<Event>)
      requires Inv(View())
      requires forall t | t in turns :: 0.0 <= t.jitter <= 1.0
      modifies this
      ensures View() == Run(old(View()), es)
      ensures es == RelayEvents(old(View()), FirstTurns(turns))
      ensures Inv(View()) && pending == old(pending)
      ensures |sends| <= |old(sends)| + RELAY_TURNS
    {
      hide Inv, Run, RelayEvents, TurnEvents, DueNow;
      NothingLeft(View());
      es := [];
      var attempted := 0;
      var more := true;
      ghost var taken := FirstTurns(turns);
      FirstTurnsAre(turns);
      hide FirstTurns, NextClaim;
      while attempted < RELAY_TURNS && attempted < |turns| && more
        invariant 0 <= attempted <= |taken| <= RELAY_TURNS
        invariant RelayEvents(old(View()), taken) == es + if more then RelayEvents(View(), taken[attempted..]) else []
        invariant View() == Run(old(View()), es) && Inv(View()) && pending == old(pending)
        invariant |sends| <= |old(sends)| + attempted
      {
        ghost var turn;
        RelayStep(View(), taken, attempted);
        more, turn := RelayTurn(turns[attempted]);
        RunConcat(old(View()), es, turn);
        es := es + turn;
        attempted := attempted + 1;
      }
      assert taken[|taken|..] == [];
      NothingLeft(View());
    }
  }

  /** Taking a claim and delivering it leaves the pending claims as they were. */
  lemma ClaimThenDeliver(s: State, claim: Claim, e: Event)
    requires ClaimTx(s.outbox, claim.id).1 == Some(claim)
    requires e.Deliver? && e.claim == claim && 0.0 <= e.jitter <= 1.0
    ensures var end := Apply(Apply(s, TakeClaim(claim.id)), e);
            end.pending == s.pending && |end.sends| <= |s.sends| + 1
  {
    assert (s.pending + multiset{claim}) - multiset{claim} == s.pending;
  }
}
