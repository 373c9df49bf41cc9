/** What holds over every run of authors, the review jobs and moderators. */
module ModerationTheorems {
  import opened Options
  import opened ModerationTables
  import opened ModerationInvariant

  lemma {:induction false} RunKeeps(s: State, es: seq<Event>)
    requires Inv(s)
    ensures Inv(Run(s, es))
  {
    if |es| > 0 {
      RunKeeps(s, es[..|es| - 1]);
      StepKeeps(Run(s, es[..|es| - 1]), es[|es| - 1]);
    }
  }

  lemma Reachable(es: seq<Event>)
    ensures Inv(Run(Init(), es))
  {
    assert Inv(Init());
    RunKeeps(Init(), es);
  }

  // ---------- the two tables agree ----------

  /** An open case goes with content under review, a resolved one with the state of its latest
      decision, which is allow or block, and a superseded one only with a deleted post or comment;
      judged content has a resolved case. */
  ghost predicate Agreement(c: Case, x: Content, log: seq<Entry>) {
    && (c.state == Open ==> x.review == UnderReview)
    && (c.state == Resolved ==>
          var d := LatestDecision(log);
          && d.Some? && d.value.Decided? && d.value.outcome in {Allow, Block}
          && x.review == (if d.value.outcome == Allow then Allowed else Blocked))
    && (c.state == Superseded ==> !x.active && c.ref.kind != Profile)
    && (x.review != UnderReview ==> c.state == Resolved)
  }

  /** Some erasure of the case's content ran while the case was open. */
  ghost predicate ErasedWhileOpen(es: seq<Event>, id: nat) { exists k: nat :: ErasedAt(es, id, k) }

  ghost predicate ErasedAt(es: seq<Event>, id: nat, k: nat) {
    && k < |es| && es[k].Erase?
    && var cases := Run(Init(), es[..k]).cases;
       id in cases && cases[id].state == Open && cases[id].ref == es[k].ref
  }

  /** How one transaction moves a case and its mark. */
  ghost predicate MarkMoves(a: map<nat, Case>, b: map<nat, Case>, id: nat, erasing: bool) {
    && (id in a ==> id in b && (b[id].erased <==> a[id].erased || erasing))
    && (id !in a && id in b ==> !b[id].erased)
  }

  lemma SupersedeMarks(cases: map<nat, Case>, ref: Ref, keep: Option<nat>, now: nat, erasing: bool, id: nat)
    requires id in cases && cases[id].state == Open ==> !cases[id].erased
    ensures MarkMoves(cases, Supersede(cases, ref, keep, now, erasing), id, erasing && id in cases && Outdated(cases[id], ref, keep))
  {
  }

  lemma UnchangedMarks(cases: map<nat, Case>, id: nat)
    ensures MarkMoves(cases, cases, id, false)
  {
  }

  lemma OpenCaseMarks(s: State, ref: Ref, source: nat, now: nat, id: nat)
    requires s.next !in s.cases && (id in s.cases && s.cases[id].state == Open ==> !s.cases[id].erased)
    ensures MarkMoves(s.cases, OpenCaseTx(s, ref, source, now).cases, id, false)
  {
    SupersedeMarks(s.cases, ref, Some(source), now, false, id);
    hide Supersede, HasCase;
  }

  lemma DeskMarks(s: State, id: nat, i: nat, expected: Option<nat>, o: Outcome, accepted: bool, now: nat, token: Revision)
    ensures MarkMoves(s.cases, DecideTx(s, i, expected, o, accepted, now).0.cases, id, false)
    ensures MarkMoves(s.cases, ReopenTx(s, i, token).0.cases, id, false)
  {
    hide CycleOf, LatestDecision, Published, ModerationState, Actionable;
  }

  /** Cases never go away, and only an erasure of an open one leaves its mark. */
  lemma MarkStep(s: State, e: Event, id: nat)
    requires Inv(s)
    ensures MarkMoves(s.cases, Apply(s, e).cases, id, e.Erase? && id in s.cases && s.cases[id].state == Open && s.cases[id].ref == e.ref)
  {
    UnusedIds(s);
    if id in s.cases { assert CaseOk(s, id); }
    hide Inv, CaseOk, DecideTx, ReopenTx, Supersede, OpenCaseTx, LogOk, Redacted, MarkMoves;
    assert MarkMoves(s.cases, s.cases, id, false) by { UnchangedMarks(s.cases, id); }
    var none := Revision(0, 0, 0);
    match e {
      case OpenCase(ref, source, now) => OpenCaseMarks(s, ref, source, now, id);
      case SupersedeDeleted(ref, now) => SupersedeMarks(s.cases, ref, None, now, false, id);
      case Erase(ref, now) => SupersedeMarks(s.cases, ref, None, now, true, id);
      case Decide(i, expected, o, accepted, now) => DeskMarks(s, id, i, expected, o, accepted, now, none);
      case Reopen(i, token) => DeskMarks(s, id, i, None, Queue, false, 0, token);
      case _ =>
    }
  }

  lemma {:induction false} CasesStay(es: seq<Event>, k: nat, id: nat)
    requires k <= |es| && id in Run(Init(), es[..k]).cases
    ensures id in Run(Init(), es).cases
    decreases |es|
  {
    if k < |es| {
      var init := es[..|es| - 1];
      assert init[..k] == es[..k];
      Reachable(init);
      hide Apply, Inv;
      CasesStay(init, k, id);
      MarkStep(Run(Init(), init), es[|es| - 1], id);
    } else {
      assert es[..k] == es;
    }
  }

  /** Whether an erasure ran while the case was open, one event later. */
  lemma ErasedLater(es: seq<Event>, id: nat)
    requires |es| > 0
    ensures var n := |es| - 1;
            ErasedWhileOpen(es, id) <==> ErasedWhileOpen(es[..n], id) || ErasedAt(es, id, n)
    ensures var n := |es| - 1;
            ErasedWhileOpen(es, id) ==> id in Run(Init(), es[..n]).cases
  {
    var n := |es| - 1;
    var init := es[..n];
    hide Run, Inv;
    if k: nat :| ErasedAt(es, id, k) {
      assert k <= n && es[..k] == init[..k];
      if k < n { assert init[k] == es[k]; assert ErasedAt(init, id, k); }
      CasesStay(init, k, id);
    }
    if k: nat :| ErasedAt(init, id, k) {
      assert es[..k] == init[..k] && es[k] == init[k];
      assert ErasedAt(es, id, k);
    }
  }

  /** The mark says exactly that an erasure ran while the case was open. */
  lemma {:induction false} MarkedExactly(es: seq<Event>, id: nat)
    requires id in Run(Init(), es).cases
    ensures Run(Init(), es).cases[id].erased <==> ErasedWhileOpen(es, id)
  {
    if |es| > 0 {
      var n := |es| - 1;
      var s := Run(Init(), es[..n]);
      Reachable(es[..n]);
      MarkStep(s, es[n], id);
      ErasedLater(es, id);
      hide Apply, Inv, ErasedWhileOpen;
      if id in s.cases { MarkedExactly(es[..n], id); }
    }
  }

  /** On the content's current revision a profile's case is superseded only by an erasure. */
  lemma ProfileCaseClosedByErasure(es: seq<Event>, id: nat)
    requires var s := Run(Init(), es);
             && id in s.cases && s.cases[id].ref.kind == Profile && s.cases[id].ref in s.contents
             && Current(s.cases[id], s.contents[s.cases[id].ref])
    ensures Run(Init(), es).cases[id].state == Superseded <==> ErasedWhileOpen(es, id)
  {
    Reachable(es);
    assert CaseOk(Run(Init(), es), id);
    hide Run, Inv, LogOk, ErasedWhileOpen;
    MarkedExactly(es, id);
  }

  /** No erasure or retention run wrote over a post or comment that was not blocked already; no erasure
      ran while a profile's case was open. */
  ghost predicate Undisturbed(es: seq<Event>, id: nat, kind: Kind, x: Content) {
    if kind == Profile then !ErasedWhileOpen(es, id) else x.overruled.None? || x.overruled == Some(Blocked)
  }

  lemma AgreementExactly(c: Case, x: Content, log: seq<Entry>, next: nat)
    requires CaseShape(c, log, next) && ContentShape(c.ref, x, next) && Current(c, x) && Agrees(c, x, log)
    ensures Agreement(c, x, log) <==> if c.ref.kind == Profile then !c.erased else x.overruled.None? || x.overruled == Some(Blocked)
    ensures x.body == Written ==> Agreement(c, x, log)
  {
    if c.state == Resolved { LatestIsLast(log); }
    hide LogOk, LatestDecision;
  }

  /** In every run, a case of the content's current revision agrees with the content exactly when no
      erasure or retention run has disturbed it; it does while the author's words stand. */
  lemma CaseContentAgreement(es: seq<Event>, id: nat)
    requires var s := Run(Init(), es);
             id in s.cases && s.cases[id].ref in s.contents && s.contents[s.cases[id].ref].source == Some(s.cases[id].source)
    ensures var s := Run(Init(), es);
            var c, x := s.cases[id], s.contents[s.cases[id].ref];
            && id in s.logs
            && (Agreement(c, x, s.logs[id]) <==> Undisturbed(es, id, c.ref.kind, x))
            && (x.body == Written ==> Agreement(c, x, s.logs[id]))
  {
    Reachable(es);
    var s := Run(Init(), es);
    assert CaseOk(s, id);
    assert ContentOk(s, s.cases[id].ref);
    hide Run, Inv, Agreement, ErasedWhileOpen;
    AgreementExactly(s.cases[id], s.contents[s.cases[id].ref], s.logs[id], s.next);
    MarkedExactly(es, id);
  }

  predicate Redacts(e: Event, ref: Ref) { e == Retain(ref) || (e.Erase? && e.ref == ref) }

  lemma StepWithoutRedaction(s: State, e: Event, ref: Ref)
    requires !Redacts(e, ref) && (ref in s.contents ==> s.contents[ref].body == Written)
    ensures ref in Apply(s, e).contents ==> Apply(s, e).contents[ref].body == Written
  {
    hide Supersede, HasCase, CycleOf, LatestDecision;
  }

  /** Without an erasure or a retention run on it, content always shows its author's words and nothing
      was written over its review. */
  lemma {:induction false} NeverRedacted(es: seq<Event>, ref: Ref)
    requires forall e | e in es :: !Redacts(e, ref)
    ensures ref in Run(Init(), es).contents ==> Run(Init(), es).contents[ref].body == Written && Run(Init(), es).contents[ref].overruled.None?
  {
    Reachable(es);
    assert ref in Run(Init(), es).contents ==> ContentOk(Run(Init(), es), ref);
    if |es| > 0 {
      hide Inv, Apply;
      NeverRedacted(es[..|es| - 1], ref);
      StepWithoutRedaction(Run(Init(), es[..|es| - 1]), es[|es| - 1], ref);
    }
  }

  /** A resolved case of the current revision whose latest decision gives the content its state. */
  ghost predicate Verdict(s: State, ref: Ref, id: nat)
    requires ref in s.contents
  {
    && id in s.cases && id in s.logs && s.cases[id].ref == ref && Some(s.cases[id].source) == s.contents[ref].source
    && s.cases[id].state == Resolved
    && LatestDecision(s.logs[id]).Some? && ModerationState(LatestDecision(s.logs[id]).value.outcome) == s.contents[ref].review
  }

  lemma VerdictExactly(s: State, ref: Ref, id: nat)
    requires Inv(s) && ref in s.contents && Standing(s, ref, id)
    ensures Verdict(s, ref, id) <==> s.contents[ref].review == Shadow(s.contents[ref])
  {
    assert CaseOk(s, id);
    LatestIsLast(s.logs[id]);
  }

  /** Allowed or blocked content has a standing decision on exactly its current revision, unless an
      erasure or a retention run blocked a post or comment that was not blocked before. */
  lemma NoVerdictWithoutDecision(es: seq<Event>, ref: Ref)
    requires ref in Run(Init(), es).contents
    ensures var s := Run(Init(), es);
            var x := s.contents[ref];
            && (ref.kind != Profile ==> x.source.Some?)
            && (x.source.Some? && x.review != UnderReview ==>
                  ((exists id :: Verdict(s, ref, id)) <==> x.overruled.None? || x.overruled == Some(Blocked)))
  {
    Reachable(es);
    var s := Run(Init(), es);
    assert ContentOk(s, ref);
    var x := s.contents[ref];
    hide Run, Inv, Verdict;
    if Judged(x) {
      var id :| Standing(s, ref, id);
      VerdictExactly(s, ref, id);
    }
    if id :| Verdict(s, ref, id) { VerdictStands(s, ref, id); }
  }

  lemma VerdictStands(s: State, ref: Ref, id: nat)
    requires Inv(s) && ref in s.contents && Verdict(s, ref, id)
    ensures s.contents[ref].review == Shadow(s.contents[ref])
  {
    assert Standing(s, ref, id);
    hide Inv, Standing, Verdict;
    VerdictExactly(s, ref, id);
  }

  /** A post carries a publication time exactly when it is allowed and not deleted; comments and
      profiles never carry one. */
  lemma {:induction false} PublishedIffAllowed(es: seq<Event>, ref: Ref)
    requires ref in Run(Init(), es).contents
    ensures var x := Run(Init(), es).contents[ref];
            && (ref.kind == Post ==> (x.publishedAt.Some? <==> x.review == Allowed && x.active))
            && (ref.kind != Post ==> x.publishedAt.None?)
  {
    Reachable(es);
    assert ContentOk(Run(Init(), es), ref);
  }

  /** "Published exactly when allowed" fails for precisely the deleted posts that had been allowed. */
  lemma {:induction false} PublishedMatchesReview(es: seq<Event>, ref: Ref)
    requires ref in Run(Init(), es).contents && ref.kind == Post
    ensures var x := Run(Init(), es).contents[ref];
            (x.publishedAt.Some? <==> x.review == Allowed) <==> (x.active || x.review != Allowed)
  {
    PublishedIffAllowed(es, ref);
  }

  lemma ThreeSteps(e1: Event, e2: Event, e3: Event)
    ensures Run(Init(), [e1, e2]) == Apply(Apply(Init(), e1), e2)
    ensures Run(Init(), [e1, e2, e3]) == Apply(Run(Init(), [e1, e2]), e3)
  {
    hide Apply;
    assert [e1, e2, e3][..2] == [e1, e2] && [e1, e2][..1] == [e1] && [e1][..0] == [];
    assert Run(Init(), [e1]) == Apply(Run(Init(), []), e1);
  }

  /** A new post with its first review case. */
  lemma PostInReview()
    ensures var s := Run(Init(), [Create(Post), OpenCase(Ref(Post, 0), 0, 7)]);
            s == State(map[Ref(Post, 0) := Content(UnderReview, None, Some(0), true, Written, None)],
                       map[1 := Case(Ref(Post, 0), 0, Open, None, false)], map[1 := [Decided(2, Queue, None)]], 3)
  {
    ThreeSteps(Create(Post), OpenCase(Ref(Post, 0), 0, 7), Create(Post));
    var s := CreateTx(Init(), Post);
    assert s == State(map[Ref(Post, 0) := Content(UnderReview, None, Some(0), true, Written, None)], map[], map[], 1);
    assert Supersede(map[], Ref(Post, 0), Some(0), 7, false) == map[];
  }

  lemma AllowedPostDeleted()
    ensures var s := Run(Init(), [Create(Post), OpenCase(Ref(Post, 0), 0, 7), Decide(1, None, Allow, true, 8), Delete(Ref(Post, 0))]);
            var ref := Ref(Post, 0);
            ref in s.contents && s.contents[ref].review == Allowed && s.contents[ref].publishedAt.None?
  {
    var ref := Ref(Post, 0);
    var es := [Create(Post), OpenCase(ref, 0, 7), Decide(1, None, Allow, true, 8)];
    assert (es + [Delete(ref)])[..3] == es;
    assert es + [Delete(ref)] == [Create(Post), OpenCase(ref, 0, 7), Decide(1, None, Allow, true, 8), Delete(ref)];
    ThreeSteps(es[0], es[1], es[2]);
    PostInReview();
    assert CycleOf([Decided(2, Queue, None)]) == None;
  }

  /** Erasure blocks a post and closes its case with no decision, though the post is not deleted. */
  lemma ErasedInReview()
    ensures var ref := Ref(Post, 0);
            var s := Run(Init(), [Create(Post), OpenCase(ref, 0, 7), Erase(ref, 8)]);
            && ref in s.contents && s.contents[ref].review == Blocked && s.contents[ref].active
            && 1 in s.cases && s.cases[1].state == Superseded && Current(s.cases[1], s.contents[ref])
            && !exists id :: Verdict(s, ref, id)
  {
    ThreeSteps(Create(Post), OpenCase(Ref(Post, 0), 0, 7), Erase(Ref(Post, 0), 8));
    PostInReview();
    hide Run;
  }

  /** An edited profile with its review case. */
  lemma ProfileInReview()
    ensures var ref := Ref(Profile, 0);
            Run(Init(), [Create(Profile), Edit(ref), OpenCase(ref, 1, 7)])
            == State(map[ref := Content(UnderReview, None, Some(1), true, Written, None)],
                     map[2 := Case(ref, 1, Open, None, false)], map[2 := [Decided(3, Queue, None)]], 4)
  {
    var ref := Ref(Profile, 0);
    ThreeSteps(Create(Profile), Edit(ref), OpenCase(ref, 1, 7));
    hide Run;
    var s := State(map[ref := Content(UnderReview, None, Some(1), true, Written, None)], map[], map[], 2);
    assert EditTx(CreateTx(Init(), Profile), ref) == s;
    assert Supersede(map[], ref, Some(1), 7, false) == map[];
  }

  /** Erasure supersedes the open case of a profile that stays under review and whose user is active. */
  lemma ErasedProfile()
    ensures var ref := Ref(Profile, 0);
            var es := [Create(Profile), Edit(ref), OpenCase(ref, 1, 7), Erase(ref, 8)];
            var s := Run(Init(), es);
            && ref in s.contents && s.contents[ref].review == UnderReview && s.contents[ref].active
            && 2 in s.cases && s.cases[2].state == Superseded && Current(s.cases[2], s.contents[ref]) && ErasedWhileOpen(es, 2)
  {
    var ref := Ref(Profile, 0);
    var es := [Create(Profile), Edit(ref), OpenCase(ref, 1, 7), Erase(ref, 8)];
    assert es[..3] == [Create(Profile), Edit(ref), OpenCase(ref, 1, 7)];
    assert Run(Init(), es) == Apply(Run(Init(), es[..3]), es[3]);
    ProfileInReview();
    hide Run;
    assert ErasedAt(es, 2, 3);
  }

  /** A retention run blocks a post whose case stays open. */
  lemma RetainedInReview()
    ensures var ref := Ref(Post, 0);
            var s := Run(Init(), [Create(Post), OpenCase(ref, 0, 7), Retain(ref)]);
            && ref in s.contents && s.contents[ref].review == Blocked && s.contents[ref].active
            && 1 in s.cases && s.cases[1].state == Open && Current(s.cases[1], s.contents[ref])
            && !exists id :: Verdict(s, ref, id)
  {
    ThreeSteps(Create(Post), OpenCase(Ref(Post, 0), 0, 7), Retain(Ref(Post, 0)));
    PostInReview();
    hide Run;
  }

  /** Different cases of one content belong to different revisions, and at most one is open; so the
      table's two unique indexes never refuse a reopening. */
  lemma OneOpenCase(es: seq<Event>, i: nat, j: nat)
    requires var s := Run(Init(), es); i in s.cases && j in s.cases && i != j && s.cases[i].ref == s.cases[j].ref
    ensures var s := Run(Init(), es);
            && s.cases[i].source != s.cases[j].source
            && !(s.cases[i].state == Open && s.cases[j].state == Open)
            && (forall token :: ReopenTx(s, i, token).1 == Done ==> s.cases[j].state != Open)
  {
    Reachable(es);
    var s := Run(Init(), es);
    assert CaseOk(s, i);
    assert PairOk(s.cases[i], s.cases[j], s.contents[s.cases[i].ref]);
  }

  // ---------- review cycles ----------

  lemma {:induction false} IdsGrow(log: seq<Entry>, i: nat, j: nat)
    requires LogOk(log) && i <= j < |log|
    ensures log[i].id <= log[j].id && (i < j ==> log[i].id < log[j].id)
  {
    if i < j {
      IdsGrow(log, i, j - 1);
      assert EntryOk(log, j);
    }
  }

  /** A revision token reopens a case at most once. */
  lemma TokenReopensOnce(es: seq<Event>, id: nat, i: nat, j: nat)
    requires id in Run(Init(), es).logs
    requires var log := Run(Init(), es).logs[id]; i < j < |log| && log[i].Reopened? && log[j].Reopened?
    ensures var log := Run(Init(), es).logs[id]; log[i].revision != log[j].revision && log[i].id != log[j].id
  {
    Reachable(es);
    assert CaseOk(Run(Init(), es), id);
    hide Run;
    ReopeningsDiffer(Run(Init(), es).logs[id], i, j);
  }

  lemma ReopeningsDiffer(log: seq<Entry>, i: nat, j: nat)
    requires LogOk(log) && i < j < |log| && log[i].Reopened? && log[j].Reopened?
    ensures log[i].revision != log[j].revision && log[i].id != log[j].id
  {
    assert EntryOk(log, i) && EntryOk(log, j);
    hide EntryOk;
    IdsGrow(log, i - 1, j - 1);
    IdsGrow(log, i, j);
  }

  /** The outcomes of the decisions that named a review cycle, in commit order. */
  function DecisionsIn(log: seq<Entry>, cycle: Option<nat>): seq<Outcome> {
    if |log| == 0 then []
    else
      var e := log[|log| - 1];
      DecisionsIn(log[..|log| - 1], cycle) + if e.Decided? && e.cycle == cycle then [e.outcome] else []
  }

  /** Any number of queues, then at most one allow or block. */
  ghost predicate QueuesThenFinal(outcomes: seq<Outcome>) { forall i | 0 <= i < |outcomes| - 1 :: outcomes[i] == Queue }

  lemma PrefixOk(log: seq<Entry>, n: nat)
    requires LogOk(log) && 0 < n <= |log|
    ensures LogOk(log[..n])
  {
    forall i: nat | i < n ensures EntryOk(log[..n], i) { assert EntryOk(log, i) && log[..n][..i] == log[..i]; }
  }

  lemma {:induction false} CycleIsAnEntry(log: seq<Entry>)
    ensures CycleOf(log).Some? ==> exists i: nat :: i < |log| && log[i].Reopened? && log[i].id == CycleOf(log).value
  {
    if |log| > 0 && !log[|log| - 1].Reopened? {
      CycleIsAnEntry(log[..|log| - 1]);
      if CycleOf(log).Some? {
        var i: nat :| i < |log| - 1 && log[..|log| - 1][i].Reopened? && log[..|log| - 1][i].id == CycleOf(log).value;
        assert log[i].Reopened?;
      }
    } else if |log| > 0 {
      assert log[|log| - 1].Reopened?;
    }
  }

  /** A cycle that has not begun yet has no decisions. */
  lemma {:induction false} NoEarlyDecisions(log: seq<Entry>, x: nat)
    requires |log| > 0 ==> LogOk(log)
    requires forall i: nat | i < |log| :: log[i].id < x
    ensures DecisionsIn(log, Some(x)) == []
  {
    if |log| > 0 {
      var init := log[..|log| - 1];
      if |init| > 0 { PrefixOk(log, |init|); }
      NoEarlyDecisions(init, x);
      assert EntryOk(log, |init|);
      CycleIsAnEntry(init);
    }
  }

  /** While the last entry is not final, the current cycle holds queue decisions only. */
  lemma {:induction false} OpenCycleIsQueues(log: seq<Entry>)
    requires LogOk(log) && !Final(log[|log| - 1])
    ensures forall o | o in DecisionsIn(log, CycleOf(log)) :: o == Queue
  {
    var n := |log| - 1;
    var init := log[..n];
    assert EntryOk(log, n);
    if n > 0 { PrefixOk(log, n); }
    if log[n].Reopened? {
      forall i: nat | i < n ensures init[i].id < log[n].id { IdsGrow(log, i, n); }
      NoEarlyDecisions(init, log[n].id);
    } else if n > 0 {
      OpenCycleIsQueues(init);
    }
  }

  lemma {:induction false} CyclesOfLog(log: seq<Entry>, cycle: Option<nat>)
    requires LogOk(log)
    ensures QueuesThenFinal(DecisionsIn(log, cycle))
  {
    var n := |log| - 1;
    var init := log[..n];
    assert EntryOk(log, n);
    if n > 0 {
      PrefixOk(log, n);
      CyclesOfLog(init, cycle);
      if log[n].Decided? && log[n].cycle == cycle {
        OpenCycleIsQueues(init);
        var d := DecisionsIn(init, cycle);
        assert DecisionsIn(log, cycle) == d + [log[n].outcome];
        assert forall i | 0 <= i < |d| :: d[i] in d;
      }
    }
  }

  /** In every cycle of every case the decisions are queues followed by at most one allow or block. */
  lemma CycleDecisions(es: seq<Event>, id: nat, cycle: Option<nat>)
    requires id in Run(Init(), es).logs
    ensures QueuesThenFinal(DecisionsIn(Run(Init(), es).logs[id], cycle))
  {
    Reachable(es);
    assert CaseOk(Run(Init(), es), id);
    CyclesOfLog(Run(Init(), es).logs[id], cycle);
  }

  // ---------- an earlier cycle never acts again ----------

  ghost predicate Extends(a: seq<Entry>, b: seq<Entry>) { |a| <= |b| && b[..|a|] == a }

  ghost predicate LogsExtend(a: map<nat, seq<Entry>>, b: map<nat, seq<Entry>>) {
    forall id | id in a :: id in b && Extends(a[id], b[id])
  }

  lemma OpenCaseLogs(s: State, ref: Ref, source: nat, now: nat)
    requires Inv(s)
    ensures LogsExtend(s.logs, OpenCaseTx(s, ref, source, now).logs)
  {
    UnusedIds(s);
    hide HasCase, Supersede, ContentsOk, PairsOk, CaseOk;
  }

  lemma DecideLogs(s: State, i: nat, expected: Option<nat>, o: Outcome, accepted: bool, now: nat)
    ensures LogsExtend(s.logs, DecideTx(s, i, expected, o, accepted, now).0.logs)
  {
    hide CycleOf, Actionable, Published, ModerationState;
    var logs := DecideTx(s, i, expected, o, accepted, now).0.logs;
    assert logs == s.logs || logs == s.logs[i := s.logs[i] + [Decided(s.next, o, expected)]];
  }

  lemma ReopenLogs(s: State, i: nat, token: Revision)
    ensures LogsExtend(s.logs, ReopenTx(s, i, token).0.logs)
  {
    hide LatestDecision;
    var logs := ReopenTx(s, i, token).0.logs;
    assert logs == s.logs || logs == s.logs[i := s.logs[i] + [Reopened(s.next, token)]];
  }

  lemma StepExtends(s: State, e: Event, id: nat)
    requires Inv(s) && id in s.logs
    ensures id in Apply(s, e).logs && Extends(s.logs[id], Apply(s, e).logs[id])
  {
    hide Inv, OpenCaseTx, DecideTx, ReopenTx;
    match e {
      case OpenCase(ref, source, now) => OpenCaseLogs(s, ref, source, now);
      case Decide(i, expected, o, accepted, now) => DecideLogs(s, i, expected, o, accepted, now);
      case Reopen(i, token) => ReopenLogs(s, i, token);
      case _ =>
    }
  }

  lemma {:induction false} RunExtends(s: State, es: seq<Event>, id: nat)
    requires Inv(s) && id in s.logs
    ensures id in Run(s, es).logs && Extends(s.logs[id], Run(s, es).logs[id])
  {
    if |es| > 0 {
      RunExtends(s, es[..|es| - 1], id);
      RunKeeps(s, es[..|es| - 1]);
      StepExtends(Run(s, es[..|es| - 1]), es[|es| - 1], id);
    }
  }

  function CycleRank(c: Option<nat>): int { if c.Some? then c.value else -1 }

  /** The current cycle only moves forward along a history. */
  lemma {:induction false} CycleGrows(a: seq<Entry>, b: seq<Entry>)
    requires LogOk(a) && LogOk(b) && Extends(a, b)
    ensures CycleRank(CycleOf(a)) <= CycleRank(CycleOf(b))
  {
    if |a| < |b| {
      var n := |b| - 1;
      PrefixOk(b, n);
      assert b[..n][..|a|] == b[..|a|];
      CycleGrows(a, b[..n]);
      CycleIsAnEntry(b[..n]);
      if CycleOf(b[..n]).Some? {
        var i: nat :| i < n && b[..n][i].Reopened? && b[..n][i].id == CycleOf(b[..n]).value;
        IdsGrow(b, i, n);
      }
    } else {
      assert a == b;
    }
  }

  /** A cycle once left is never current again. */
  lemma CycleLeftForGood(a: seq<Entry>, b: seq<Entry>, c: seq<Entry>)
    requires LogOk(a) && LogOk(b) && LogOk(c) && Extends(a, b) && Extends(b, c) && CycleOf(a) != CycleOf(b)
    ensures CycleOf(c) != CycleOf(a)
  {
    hide LogOk;
    CycleGrows(a, b);
    CycleGrows(b, c);
  }

  /** Once a case has left a review cycle, a decision that names it is refused for ever after. */
  lemma StaleCycleNeverDecides(es: seq<Event>, es1: seq<Event>, es2: seq<Event>, id: nat, o: Outcome, accepted: bool, now: nat)
    requires id in Run(Init(), es).logs
    requires var s := Run(Init(), es);
             var s1 := Run(s, es1);
             id in s1.logs && CycleOf(s1.logs[id]) != CycleOf(s.logs[id])
    ensures var s := Run(Init(), es);
            var s2 := Run(Run(s, es1), es2);
            && DecideTx(s2, id, CycleOf(s.logs[id]), o, accepted, now).0 == s2
            && DecideTx(s2, id, CycleOf(s.logs[id]), o, accepted, now).1.Refused?
  {
    var s := Run(Init(), es);
    Reachable(es);
    RunKeeps(s, es1);
    var s1 := Run(s, es1);
    RunKeeps(s1, es2);
    var s2 := Run(s1, es2);
    RunExtends(s, es1, id);
    RunExtends(s1, es2, id);
    assert CaseOk(s, id) && CaseOk(s1, id) && CaseOk(s2, id);
    hide Inv, Run, LogOk, CycleOf, Agrees;
    CycleLeftForGood(s.logs[id], s1.logs[id], s2.logs[id]);
  }
}
