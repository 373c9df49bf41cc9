/** What the moderation transactions answer, in every reachable state: exactly when a decision or a
    re-review goes through, and the rows and history each transaction leaves. */
module ModerationAnswers {
  import opened Options
  import opened ModerationTables
  import opened ModerationInvariant
  import opened ModerationTheorems

  // ---------- the desk ----------

  ghost predicate LastReopened(log: seq<Entry>, x: nat, i: nat) {
    i < |log| && log[i].Reopened? && log[i].id == x && forall j | i < j < |log| :: log[j].Decided?
  }

  /** The named cycle is the latest reopening of the history, or none where there is no reopening. */
  ghost predicate NamesCycle(log: seq<Entry>, cycle: Option<nat>) {
    match cycle
    case None => forall i | 0 <= i < |log| :: log[i].Decided?
    case Some(x) => exists i: nat :: LastReopened(log, x, i)
  }

  lemma LastReopenedLater(log: seq<Entry>, x: nat, i: nat)
    requires |log| > 0 && log[|log| - 1].Decided?
    ensures LastReopened(log, x, i) <==> LastReopened(log[..|log| - 1], x, i)
  {
    var init := log[..|log| - 1];
    if LastReopened(init, x, i) {
      forall j | i < j < |log| ensures log[j].Decided? { if j < |init| { assert init[j] == log[j]; } }
    }
  }

  lemma {:induction false} CycleIsNamed(log: seq<Entry>, cycle: Option<nat>)
    ensures NamesCycle(log, cycle) <==> cycle == CycleOf(log)
  {
    if |log| > 0 {
      var n := |log| - 1;
      CycleIsNamed(log[..n], cycle);
      if log[n].Reopened? {
        assert LastReopened(log, log[n].id, n);
      } else if cycle.Some? {
        hide LastReopened;
        forall i: nat ensures LastReopened(log, cycle.value, i) <==> LastReopened(log[..n], cycle.value, i) {
          LastReopenedLater(log, cycle.value, i);
        }
      } else {
        assert forall i | 0 <= i < n :: log[..n][i] == log[i];
      }
    }
  }

  /** The case belongs to the current revision of content that is there and active. */
  ghost predicate OnCurrent(s: State, id: nat) {
    && id in s.cases && s.cases[id].ref in s.contents
    && s.contents[s.cases[id].ref].active && s.contents[s.cases[id].ref].source == Some(s.cases[id].source)
  }

  /** One case, its content and its history change, the history by one entry; nothing else does. */
  ghost predicate Changes(s: State, id: nat, s': State, c: Case, x: Content, e: Entry) {
    && id in s.cases && id in s.logs && e.id == s.next && s'.next == s.next + 1
    && s'.contents == s.contents[s.cases[id].ref := x] && s'.cases == s.cases[id := c] && s'.logs == s.logs[id := s.logs[id] + [e]]
  }

  /** Content after a decision: its state follows the outcome; a post is published from now or as before
      when allowed and not at all when not. */
  ghost predicate Follows(kind: Kind, o: Outcome, now: nat, x: Content, y: Content) {
    && y.source == x.source && y.active == x.active && y.body == x.body && y.overruled.None?
    && (o == Allow ==> y.review == Allowed) && (o == Block ==> y.review == Blocked) && (o == Queue ==> y.review == UnderReview)
    && (kind != Post ==> y.publishedAt == x.publishedAt)
    && (kind == Post && o != Allow ==> y.publishedAt.None?)
    && (kind == Post && o == Allow ==> y.publishedAt == if x.publishedAt.Some? then x.publishedAt else Some(now))
  }

  lemma FollowsDecision(kind: Kind, o: Outcome, now: nat, x: Content)
    ensures Follows(kind, o, now, x, x.(review := ModerationState(o), publishedAt := Published(kind, x, o, now), overruled := None))
  {
  }

  ghost predicate Decidable(s: State, id: nat, expected: Option<nat>, accepted: bool) {
    id in s.cases && id in s.logs && s.cases[id].state == Open && OnCurrent(s, id) && NamesCycle(s.logs[id], expected) && accepted
  }

  /** What a decision that cannot go through is told. */
  ghost predicate ToldWhy(s: State, id: nat, expected: Option<nat>, why: Refusal) {
    if id !in s.cases || id !in s.logs then why == CaseNotFound
    else if s.cases[id].state == Resolved then why == CaseAlreadyResolved
    else if s.cases[id].state == Superseded || !OnCurrent(s, id) then why == CaseSuperseded
    else if !NamesCycle(s.logs[id], expected) then why == RevisionConflict
    else why == DecisionRejected
  }

  lemma DecideTells(s: State, id: nat, expected: Option<nat>, o: Outcome, accepted: bool, now: nat)
    requires id in s.cases && s.cases[id].state == Open ==> s.cases[id].resolvedAt.None?
    ensures var (s', reply) := DecideTx(s, id, expected, o, accepted, now);
            if Decidable(s, id, expected, accepted) then
              && reply == Done
              && var c, x := s.cases[id], s.contents[s.cases[id].ref];
                 exists y :: Follows(c.ref.kind, o, now, x, y) && Changes(s, id, s',
                   if o == Queue then c else c.(state := Resolved, resolvedAt := Some(now)), y, Decided(s.next, o, expected))
            else s' == s && reply.Refused? && ToldWhy(s, id, expected, reply.why)
  {
    if id in s.cases && id in s.logs {
      CycleIsNamed(s.logs[id], expected);
      if s.cases[id].ref in s.contents { FollowsDecision(s.cases[id].ref.kind, o, now, s.contents[s.cases[id].ref]); }
    }
    hide NamesCycle, CycleOf, Follows, Published, ModerationState;
  }

  lemma CaseFacts(s: State, id: nat)
    requires Inv(s) && id in s.cases
    ensures id in s.logs && |s.logs[id]| > 0 && (s.cases[id].state == Open <==> s.cases[id].resolvedAt.None?)
    ensures s.cases[id].state == Resolved ==> LatestDecision(s.logs[id]) == Some(s.logs[id][|s.logs[id]| - 1])
  {
    assert CaseOk(s, id);
    if s.cases[id].state == Resolved { LatestIsLast(s.logs[id]); }
    hide Inv, CaseOk;
  }

  /** In every reachable state a decision goes through if and only if the case is open, on the current
      revision of active content, the named cycle is the latest reopening, and the label rules accept; then
      case, content and history follow it, and otherwise nothing changes and the reply says why. */
  lemma DecideExactly(es: seq<Event>, id: nat, expected: Option<nat>, o: Outcome, accepted: bool, now: nat)
    ensures var s := Run(Init(), es);
            var (s', reply) := DecideTx(s, id, expected, o, accepted, now);
            && s' == Apply(s, Decide(id, expected, o, accepted, now))
            && (reply == Done <==> Decidable(s, id, expected, accepted))
            && (reply == Done ==>
                  && var c, x := s.cases[id], s.contents[s.cases[id].ref];
                     exists y :: Follows(c.ref.kind, o, now, x, y) && Changes(s, id, s',
                       if o == Queue then c else c.(state := Resolved, resolvedAt := Some(now)), y, Decided(s.next, o, expected)))
            && (reply != Done ==> s' == s && ToldWhy(s, id, expected, reply.why))
  {
    var s := Run(Init(), es);
    Reachable(es);
    if id in s.cases { CaseFacts(s, id); }
    hide Run, Inv;
    DecideTells(s, id, expected, o, accepted, now);
    hide DecideTx, Decidable, Changes, Follows, ToldWhy;
  }

  /** The token tells the moment of the resolution, the revision and the final decision. */
  ghost predicate Reopenable(s: State, id: nat, token: Revision) {
    && id in s.cases && id in s.logs && |s.logs[id]| > 0 && s.cases[id].state == Resolved
    && s.cases[id].resolvedAt == Some(token.resolvedAt) && s.cases[id].source == token.source
    && s.logs[id][|s.logs[id]| - 1].id == token.decision
    && s.cases[id].ref.kind != Profile && OnCurrent(s, id)
  }

  /** What a re-review that cannot go through is told. */
  ghost predicate ReviewRefusal(s: State, id: nat, token: Revision, why: Refusal) {
    if id !in s.cases || id !in s.logs || |s.logs[id]| == 0 then why == CaseNotFound
    else if s.cases[id].state == Superseded then why == CaseSuperseded
    else if s.cases[id].state == Open then why == CaseStateConflict
    else if !(s.cases[id].resolvedAt == Some(token.resolvedAt) && s.cases[id].source == token.source
              && s.logs[id][|s.logs[id]| - 1].id == token.decision) then why == RevisionConflict
    else if s.cases[id].ref.kind == Profile then why == ProfileEditingUnavailable
    else why == CaseSuperseded
  }

  lemma ReopenTells(s: State, id: nat, token: Revision)
    requires id in s.cases ==> id in s.logs && |s.logs[id]| > 0
    requires id in s.cases && s.cases[id].state == Resolved ==> LatestDecision(s.logs[id]) == Some(s.logs[id][|s.logs[id]| - 1])
    requires id in s.cases && s.cases[id].ref in s.contents && s.cases[id].ref.kind == Comment ==> s.contents[s.cases[id].ref].publishedAt.None?
    ensures var (s', reply) := ReopenTx(s, id, token);
            if Reopenable(s, id, token) then
              && reply == Done
              && Changes(s, id, s', s.cases[id].(state := Open, resolvedAt := None),
                         s.contents[s.cases[id].ref].(review := UnderReview, publishedAt := None, overruled := None), Reopened(s.next, token))
            else s' == s && reply.Refused? && ReviewRefusal(s, id, token, reply.why)
  {
    hide LatestDecision;
  }

  /** In every reachable state a re-review goes through if and only if the case is resolved, the token is its
      own, and it is on the current revision of an active post or comment; then the content is under review
      and unpublished, the case open and the reopening on record, and otherwise nothing changes and the
      reply says why. */
  lemma ReopenExactly(es: seq<Event>, id: nat, token: Revision)
    ensures var s := Run(Init(), es);
            var (s', reply) := ReopenTx(s, id, token);
            && s' == Apply(s, Reopen(id, token))
            && (reply == Done <==> Reopenable(s, id, token))
            && (reply == Done ==> Changes(s, id, s', s.cases[id].(state := Open, resolvedAt := None),
                  s.contents[s.cases[id].ref].(review := UnderReview, publishedAt := None, overruled := None), Reopened(s.next, token)))
            && (reply != Done ==> s' == s && ReviewRefusal(s, id, token, reply.why))
  {
    var s := Run(Init(), es);
    Reachable(es);
    if id in s.cases {
      CaseFacts(s, id);
      if s.cases[id].ref in s.contents { assert ContentOk(s, s.cases[id].ref); }
    }
    hide Run, Inv, ContentOk;
    ReopenTells(s, id, token);
    hide ReopenTx, Reopenable, Changes, ReviewRefusal;
  }

  // ---------- the jobs ----------

  /** Every open case of the content but the kept one is closed now; no other case moves. */
  ghost predicate ClosesCases(a: map<nat, Case>, b: map<nat, Case>, ref: Ref, keep: Option<nat>, now: nat, erasing: bool) {
    && a.Keys <= b.Keys
    && forall i | i in a ::
         b[i] == if a[i].ref == ref && a[i].state == Open && keep != Some(a[i].source)
                 then a[i].(state := Superseded, resolvedAt := Some(now), erased := erasing) else a[i]
  }

  ghost predicate OpenUnresolved(s: State) { forall i | i in s.cases && s.cases[i].state == Open :: s.cases[i].resolvedAt.None? }

  lemma InvUnresolved(s: State)
    requires Inv(s)
    ensures OpenUnresolved(s)
  {
    forall i | i in s.cases && s.cases[i].state == Open ensures s.cases[i].resolvedAt.None? { assert CaseOk(s, i); }
  }

  lemma SupersedeCloses(s: State, ref: Ref, keep: Option<nat>, now: nat, erasing: bool)
    requires OpenUnresolved(s)
    ensures var b := Supersede(s.cases, ref, keep, now, erasing); b.Keys == s.cases.Keys && ClosesCases(s.cases, b, ref, keep, now, erasing)
  {
  }

  /** The content waits for its first case on this revision. */
  ghost predicate Waits(s: State, ref: Ref, source: nat) {
    && ref in s.contents && s.contents[ref].active && s.contents[ref].source == Some(source) && s.contents[ref].review == UnderReview
    && forall i | i in s.cases :: !(s.cases[i].ref == ref && s.cases[i].source == source)
  }

  lemma WaitsExactly(s: State, ref: Ref, source: nat)
    ensures Waits(s, ref, source) <==>
              && ref in s.contents && s.contents[ref].active && s.contents[ref].source == Some(source)
              && s.contents[ref].review == UnderReview && !HasCase(s, ref, source)
  {
    if HasCase(s, ref, source) {
      var i :| i in s.cases.Keys && s.cases[i].ref == ref && s.cases[i].source == source;
      assert i in s.cases;
    }
  }

  ghost predicate CaseOpened(s: State, s': State, ref: Ref, source: nat, now: nat) {
    && s'.contents == s.contents && s'.next == s.next + 2 && s.next !in s.cases
    && s'.cases.Keys == s.cases.Keys + {s.next} && ClosesCases(s.cases, s'.cases, ref, Some(source), now, false)
    && s'.cases[s.next] == Case(ref, source, Open, None, false)
    && s'.logs == s.logs[s.next := [Decided(s.next + 1, Queue, None)]]
  }

  lemma OpenCaseTells(s: State, ref: Ref, source: nat, now: nat)
    requires OpenUnresolved(s) && s.next !in s.cases
    ensures var s' := OpenCaseTx(s, ref, source, now); if Waits(s, ref, source) then CaseOpened(s, s', ref, source, now) else s' == s
  {
    WaitsExactly(s, ref, source);
    SupersedeCloses(s, ref, Some(source), now, false);
    hide Supersede, HasCase, Waits, OpenUnresolved;
  }

  /** The review job opens a case exactly then, with a queue decision, and closes the cases of older
      revisions. */
  lemma OpenCaseExactly(es: seq<Event>, ref: Ref, source: nat, now: nat)
    ensures var s := Run(Init(), es);
            var s' := Apply(s, OpenCase(ref, source, now));
            if Waits(s, ref, source) then CaseOpened(s, s', ref, source, now) else s' == s
  {
    var s := Run(Init(), es);
    Reachable(es);
    UnusedIds(s);
    InvUnresolved(s);
    hide Run, Inv, OpenUnresolved, Waits, CaseOpened;
    OpenCaseTells(s, ref, source, now);
    hide OpenCaseTx;
  }

  /** The clean-up after a deletion, privacy erasure and retention. */
  lemma JobsExactly(es: seq<Event>, ref: Ref, now: nat)
    ensures var s := Run(Init(), es);
            var s1, s2, s3 := Apply(s, SupersedeDeleted(ref, now)), Apply(s, Erase(ref, now)), Apply(s, Retain(ref));
            && s1 == s.(cases := s1.cases) && s2 == s.(contents := s2.contents, cases := s2.cases) && s3 == s.(contents := s3.contents)
            && s1.cases.Keys == s2.cases.Keys == s.cases.Keys
            && (if ref in s.contents && ref.kind != Profile && !s.contents[ref].active
                then ClosesCases(s.cases, s1.cases, ref, None, now, false) else s1 == s)
            && (ref !in s.contents ==> s2 == s && s3 == s)
            && (ref in s.contents ==>
                  && ClosesCases(s.cases, s2.cases, ref, None, now, true)
                  && s2.contents == s.contents[ref := if ref.kind == Profile then s.contents[ref].(body := Erased) else Overwritten(s.contents[ref], Erased)]
                  && s3.contents == if ref.kind == Post && s.contents[ref].body != Retained
                       then s.contents[ref := Overwritten(s.contents[ref], Retained)] else s.contents)
  {
    var s := Run(Init(), es);
    Reachable(es);
    InvUnresolved(s);
    hide Run, Inv, OpenUnresolved;
    SupersedeCloses(s, ref, None, now, false);
    SupersedeCloses(s, ref, None, now, true);
    hide Supersede, ClosesCases;
  }

  /** Blocked and unpublished under other words; what stood before is remembered once. */
  function Overwritten(x: Content, body: Body): Content {
    Content(Blocked, None, x.source, x.active, body, Some(if x.overruled.Some? then x.overruled.value else x.review))
  }

  // ---------- authors and users ----------

  /** A new post or comment is under review and a new profile allowed; an edit sends any content back to
      review under a new revision; deletion unpublishes and keeps the review; users come and go. */
  lemma AuthorsExactly(s: State, kind: Kind, ref: Ref, active: bool)
    ensures Apply(s, Create(kind)) == s.(next := s.next + 1, contents := s.contents[Ref(kind, s.next) :=
              if kind == Profile then Content(Allowed, None, None, true, Written, None) else Content(UnderReview, None, Some(s.next), true, Written, None)])
    ensures Apply(s, Edit(ref)) == if ref in s.contents && (ref.kind == Profile || s.contents[ref].active)
              then s.(next := s.next + 1, contents := s.contents[ref := Content(UnderReview, None, Some(s.next), s.contents[ref].active, Written, None)]) else s
    ensures Apply(s, Delete(ref)) == if ref in s.contents && ref.kind != Profile
              then s.(contents := s.contents[ref := s.contents[ref].(active := false, publishedAt := None)]) else s
    ensures Apply(s, UserStatus(ref, active)) == if ref in s.contents && ref.kind == Profile
              then s.(contents := s.contents[ref := s.contents[ref].(active := active)]) else s
  {
  }

  // ---------- a run ----------

  const POST := Ref(Post, 0)

  function Disputed(): seq<Event> {
    [Create(Post), OpenCase(POST, 0, 7)] + [Decide(1, None, Block, true, 8), Reopen(1, Revision(8, 0, 3))] + [Decide(1, Some(4), Allow, true, 9)]
  }

  lemma BlockedState()
    ensures var s := Run(Init(), [Create(Post), OpenCase(POST, 0, 7)]);
            Apply(s, Decide(1, None, Block, true, 8))
            == State(map[POST := Content(Blocked, None, Some(0), true, Written, None)],
                     map[1 := Case(POST, 0, Resolved, Some(8), false)], map[1 := [Decided(2, Queue, None), Decided(3, Block, None)]], 4)
  {
    PostInReview();
    assert CycleOf([Decided(2, Queue, None)]) == None;
    assert [Decided(2, Queue, None)] + [Decided(3, Block, None)] == [Decided(2, Queue, None), Decided(3, Block, None)];
    hide Run;
  }

  lemma ReopenedState()
    ensures Apply(State(map[POST := Content(Blocked, None, Some(0), true, Written, None)],
                        map[1 := Case(POST, 0, Resolved, Some(8), false)], map[1 := [Decided(2, Queue, None), Decided(3, Block, None)]], 4),
                  Reopen(1, Revision(8, 0, 3)))
            == State(map[POST := Content(UnderReview, None, Some(0), true, Written, None)], map[1 := Case(POST, 0, Open, None, false)],
                     map[1 := [Decided(2, Queue, None), Decided(3, Block, None), Reopened(4, Revision(8, 0, 3))]], 5)
  {
    assert LatestDecision([Decided(2, Queue, None), Decided(3, Block, None)]) == Some(Decided(3, Block, None));
    assert [Decided(2, Queue, None), Decided(3, Block, None)] + [Reopened(4, Revision(8, 0, 3))]
        == [Decided(2, Queue, None), Decided(3, Block, None), Reopened(4, Revision(8, 0, 3))];
  }

  /** Blocked, reopened under its token, and allowed in the new cycle. */
  lemma DisputedRun()
    ensures var s := Run(Init(), Disputed());
            && s.contents == map[POST := Content(Allowed, Some(9), Some(0), true, Written, None)]
            && s.cases == map[1 := Case(POST, 0, Resolved, Some(9), false)]
            && s.logs == map[1 := [Decided(2, Queue, None), Decided(3, Block, None), Reopened(4, Revision(8, 0, 3)), Decided(5, Allow, Some(4))]]
  {
    var first := [Create(Post), OpenCase(POST, 0, 7)];
    var second := [Decide(1, None, Block, true, 8), Reopen(1, Revision(8, 0, 3))];
    var log := [Decided(2, Queue, None), Decided(3, Block, None), Reopened(4, Revision(8, 0, 3))];
    assert CycleOf(log) == Some(4);
    assert log + [Decided(5, Allow, Some(4))] == [Decided(2, Queue, None), Decided(3, Block, None), Reopened(4, Revision(8, 0, 3)), Decided(5, Allow, Some(4))];
    RunJoined(Init(), first + second, [Decide(1, Some(4), Allow, true, 9)]);
    RunJoined(Init(), first, second);
    BlockedState();
    ReopenedState();
    TwoMore(Run(Init(), first), second[0], second[1]);
    TwoMore(Run(Init(), first + second), Decide(1, Some(4), Allow, true, 9), Create(Post));
    hide Run, CycleOf;
  }

  lemma TwoMore(s: State, a: Event, b: Event)
    ensures Run(s, [a]) == Apply(s, a) && Run(s, [a, b]) == Apply(Apply(s, a), b)
  {
    hide Apply;
    assert [a][..0] == [] && [a, b][..1] == [a];
    assert Run(s, [a][..0]) == s;
  }

  lemma {:induction false} RunJoined(s: State, xs: seq<Event>, ys: seq<Event>)
    ensures Run(s, xs + ys) == Run(Run(s, xs), ys)
  {
    if |ys| == 0 {
      assert xs + ys == xs;
    } else {
      assert (xs + ys)[..|xs + ys| - 1] == xs + ys[..|ys| - 1];
      RunJoined(s, xs, ys[..|ys| - 1]);
    }
  }
}
