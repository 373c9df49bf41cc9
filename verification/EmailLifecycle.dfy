/** Where provider lifecycle events lead an accepted mail, in any order and with any duplicates. */
module EmailLifecycle {
  import opened Options
  import opened EmailTables

  function Fold(s: MailState, ks: seq<Kind>): MailState {
    if |ks| == 0 then s else LifecycleState(Fold(s, ks[..|ks| - 1]), ks[|ks| - 1])
  }

  /** The earliest terminal kind of a sequence. */
  function FirstTerminal(ks: seq<Kind>): (r: Option<Kind>)
    ensures r.None? <==> forall k | k in ks :: !Terminal(k)
    ensures r.Some? ==> Terminal(r.value) && r.value in ks
  {
    if |ks| == 0 then None
    else
      var r := FirstTerminal(ks[..|ks| - 1]);
      assert ks == ks[..|ks| - 1] + [ks[|ks| - 1]];
      if r.Some? then r else if Terminal(ks[|ks| - 1]) then Some(ks[|ks| - 1]) else None
  }

  /** For every event sequence: the first terminal kind wins, else delivered, else deferred, else
      the mail is still merely accepted. */
  lemma {:induction false} FinalState(ks: seq<Kind>)
    ensures Fold(Accepted, ks) ==
              if FirstTerminal(ks).Some? then StateOf(FirstTerminal(ks).value)
              else if KindDelivered in ks then Delivered
              else if KindDeferred in ks then Deferred
              else Accepted
    ensures FirstTerminal(ks) == Some(KindBounced) ==> Fold(Accepted, ks) == Bounced
    ensures FirstTerminal(ks) == Some(KindFailed) ==> Fold(Accepted, ks) == MailFailed
    ensures FirstTerminal(ks) == Some(KindRejected) ==> Fold(Accepted, ks) == Rejected
    ensures FirstTerminal(ks) == Some(KindComplained) ==> Fold(Accepted, ks) == Complained
  {
    if |ks| > 0 {
      var init, last := ks[..|ks| - 1], ks[|ks| - 1];
      FinalState(init);
      InLast(ks, KindDelivered);
      InLast(ks, KindDeferred);
      assert Fold(Accepted, ks) == LifecycleState(Fold(Accepted, init), last);
    }
  }

  lemma InLast(ks: seq<Kind>, k: Kind)
    requires |ks| > 0
    ensures k in ks <==> k in ks[..|ks| - 1] || k == ks[|ks| - 1]
  {
    assert ks == ks[..|ks| - 1] + [ks[|ks| - 1]];
  }

  /** At most one distinct terminal kind occurs. */
  ghost predicate OneTerminal(ks: seq<Kind>) {
    forall a, b | a in ks && b in ks && Terminal(a) && Terminal(b) :: a == b
  }

  /** The same events, in any order and with any multiplicity. */
  ghost predicate SameKinds(xs: seq<Kind>, ys: seq<Kind>) { forall k :: k in xs <==> k in ys }

  /** Delivery reports converge: with at most one terminal kind, order and duplicates do not matter. */
  lemma Convergence(xs: seq<Kind>, ys: seq<Kind>)
    requires SameKinds(xs, ys) && OneTerminal(xs)
    ensures Fold(Accepted, xs) == Fold(Accepted, ys)
    ensures forall t | t in xs && Terminal(t) :: Fold(Accepted, xs) == StateOf(t)
  {
    FinalState(xs);
    FinalState(ys);
    assert FirstTerminal(xs) == FirstTerminal(ys) by {
      if FirstTerminal(xs).Some? { assert FirstTerminal(xs).value in ys; }
      if FirstTerminal(ys).Some? { assert FirstTerminal(ys).value in xs; }
    }
  }

  /** ... and that condition is exact: two distinct terminal kinds make the outcome depend on order. */
  lemma ConvergenceIsExact(xs: seq<Kind>)
    ensures OneTerminal(xs) <==> forall ys | SameKinds(xs, ys) :: Fold(Accepted, xs) == Fold(Accepted, ys)
  {
    if OneTerminal(xs) {
      forall ys | SameKinds(xs, ys) ensures Fold(Accepted, xs) == Fold(Accepted, ys) { Convergence(xs, ys); }
    } else {
      var a, b :| a in xs && b in xs && Terminal(a) && Terminal(b) && a != b;
      FrontDecides(a, xs);
      FrontDecides(b, xs);
      RepeatedFront(a, xs);
      RepeatedFront(b, xs);
      StatesDiffer(a, b);
      hide Fold, SameKinds, StateOf;
    }
  }

  lemma RepeatedFront(k: Kind, ks: seq<Kind>)
    requires k in ks
    ensures SameKinds(ks, [k] + ks)
  {
  }

  lemma StatesDiffer(a: Kind, b: Kind)
    requires Terminal(a) && Terminal(b) && a != b
    ensures StateOf(a) != StateOf(b)
  {
  }

  lemma {:induction false} FrontDecides(t: Kind, ks: seq<Kind>)
    requires Terminal(t)
    ensures Fold(Accepted, [t] + ks) == StateOf(t)
  {
    if |ks| == 0 {
      assert ([t] + ks)[..0] == [];
    } else {
      assert ([t] + ks)[..|ks|] == [t] + ks[..|ks| - 1];
      FrontDecides(t, ks[..|ks| - 1]);
    }
  }

  /** A terminal or cancelled mail never changes again. */
  lemma {:induction false} TerminalAbsorbs(s: MailState, ks: seq<Kind>)
    requires Frozen(s)
    ensures Fold(s, ks) == s
  {
    if |ks| > 0 { TerminalAbsorbs(s, ks[..|ks| - 1]); }
  }

  /** A well-formed event is answered true exactly when some row carries its message id. */
  lemma AnsweredWhenKnown(o: Outbox, kind: Option<Kind>, m: MessageId)
    ensures var (o', answered) := LifecycleTx(o, kind, m);
            && o'.rows.Keys == o.rows.Keys
            && (answered <==> kind.Some? && 0 < |m| <= MAX_MESSAGE_ID && Known(o, m))
            && forall id | id in o.rows :: o'.rows[id].state ==
                 if kind.Some? && 0 < |m| <= MAX_MESSAGE_ID && o.rows[id].messageId == Some(m)
                 then LifecycleState(o.rows[id].state, kind.value) else o.rows[id].state
  {
    if kind.Some? && 0 < |m| <= MAX_MESSAGE_ID {
      var changed := set id | id in o.rows && Touched(o.rows[id], kind.value, m);
      var o' := LifecycleTx(o, kind, m).0;
      assert forall id | id in o.rows :: o'.rows[id].messageId == o.rows[id].messageId;
      if |changed| == 1 {
        assert changed != {};
        var id :| id in changed;
        assert id in o.rows.Keys;
      }
      if Known(o, m) { var id :| id in o.rows.Keys && o.rows[id].messageId == Some(m); assert id in o'.rows.Keys; }
      if Known(o', m) { var id :| id in o'.rows.Keys && o'.rows[id].messageId == Some(m); assert id in o.rows.Keys; }
    }
  }
}
