/** What every moderation transaction keeps: the case table, the content tables and the decision
    history agree. */
module ModerationInvariant {
  import opened Options
  import opened ModerationTables

  // ---------- one case's history ----------

  ghost predicate Final(e: Entry) { e.Decided? && e.outcome != Queue }

  /** Entries have growing ids. A decision names the cycle it was made in and never follows a final
      one; a reopening directly follows the final decision its token names. */
  ghost predicate EntryOk(log: seq<Entry>, i: nat)
    requires i < |log|
  {
    && (i > 0 ==> log[i - 1].id < log[i].id)
    && (log[i].Decided? ==> log[i].cycle == CycleOf(log[..i]) && (i > 0 ==> !Final(log[i - 1])))
    && (log[i].Reopened? ==> i > 0 && Final(log[i - 1]) && log[i].revision.decision == log[i - 1].id)
  }

  ghost predicate LogOk(log: seq<Entry>) { |log| > 0 && forall i: nat | i < |log| :: EntryOk(log, i) }

  lemma LogGrows(log: seq<Entry>, e: Entry)
    requires LogOk(log) && EntryOk(log + [e], |log|)
    ensures LogOk(log + [e])
  {
    var log' := log + [e];
    forall i: nat | i < |log'| ensures EntryOk(log', i) {
      if i < |log| { assert EntryOk(log, i) && log'[..i] == log[..i]; }
    }
  }

  // ---------- rows ----------

  ghost predicate CaseShape(c: Case, log: seq<Entry>, next: nat) {
    && LogOk(log) && log[|log| - 1].id < next && c.source < next
    && (c.state == Resolved <==> Final(log[|log| - 1]))
    && (c.state == Open <==> c.resolvedAt.None?)
    && (c.erased ==> c.state == Superseded)
  }

  ghost predicate Current(c: Case, x: Content) { x.source == Some(c.source) }

  /** What an erasure leaves on the content of a case it closed. */
  ghost predicate Erasable(kind: Kind, x: Content, erasing: bool) {
    erasing && x.body != Written && (kind != Profile ==> x.overruled.Some?)
  }

  /** On the content's current revision the case agrees with the review state that the desk and the
      author left. */
  ghost predicate Agrees(c: Case, x: Content, log: seq<Entry>)
    requires |log| > 0
  {
    Current(c, x) ==>
      && (c.state != Resolved ==> Shadow(x) == UnderReview)
      && (c.state == Resolved ==> Final(log[|log| - 1]) && Shadow(x) == ModerationState(log[|log| - 1].outcome))
      && (c.state == Superseded ==> Erasable(c.ref.kind, x, c.erased) || (!x.active && c.ref.kind != Profile))
      && (c.erased ==> x.body != Written)
  }

  ghost predicate ContentShape(ref: Ref, x: Content, next: nat) {
    && (x.source.Some? ==> x.source.value < next)
    && (x.source.None? ==> ref.kind == Profile && x.review == Allowed)
    && (ref.kind == Post ==> (x.publishedAt.Some? <==> x.review == Allowed && x.active))
    && (ref.kind != Post ==> x.publishedAt.None?)
    && (x.overruled.Some? ==> ref.kind != Profile && x.body != Written && x.review == Blocked)
  }

  ghost predicate Judged(x: Content) { x.source.Some? && Shadow(x) != UnderReview }

  ghost predicate Standing(s: State, ref: Ref, i: nat) {
    i in s.cases && ref in s.contents && s.cases[i].ref == ref && s.cases[i].state == Resolved && Current(s.cases[i], s.contents[ref])
  }

  /** Two cases of one content: different revisions, never both open, and no other case is open
      beside the current revision's. */
  ghost predicate PairOk(c: Case, d: Case, x: Content) {
    && c.source != d.source
    && !(c.state == Open && d.state == Open)
    && (Current(c, x) ==> d.state != Open)
    && (Current(d, x) ==> c.state != Open)
  }

  ghost predicate CaseOk(s: State, i: nat)
    requires i in s.cases && i in s.logs
  {
    && i < s.next && CaseShape(s.cases[i], s.logs[i], s.next)
    && s.cases[i].ref in s.contents && Agrees(s.cases[i], s.contents[s.cases[i].ref], s.logs[i])
  }

  ghost predicate CasesOk(s: State) { s.cases.Keys == s.logs.Keys && forall i | i in s.cases :: CaseOk(s, i) }

  ghost predicate ContentOk(s: State, r: Ref)
    requires r in s.contents
  {
    r.id < s.next && ContentShape(r, s.contents[r], s.next) && (Judged(s.contents[r]) ==> exists i :: Standing(s, r, i))
  }

  ghost predicate ContentsOk(s: State) { forall r | r in s.contents :: ContentOk(s, r) }

  ghost predicate PairsOk(s: State) {
    forall i, j | i in s.cases && j in s.cases && i != j && s.cases[i].ref == s.cases[j].ref && s.cases[i].ref in s.contents ::
      PairOk(s.cases[i], s.cases[j], s.contents[s.cases[i].ref])
  }

  ghost predicate Inv(s: State) { CasesOk(s) && ContentsOk(s) && PairsOk(s) }

  // ---------- events that write one content row ----------

  /** A content row may change when it stays well formed, every case of it still agrees, its judgement
      still stands and its current revision is the old one or brand new. */
  ghost predicate ContentWriteOk(s: State, ref: Ref, x: Content, next: nat) {
    && s.next <= next && ref.id < next && ContentShape(ref, x, next)
    && (forall i | i in s.cases && s.cases[i].ref == ref && i in s.logs && |s.logs[i]| > 0 :: Agrees(s.cases[i], x, s.logs[i]))
    && (Judged(x) ==> ref in s.contents && Judged(s.contents[ref]))
    && ((ref in s.contents && x.source == s.contents[ref].source)
        || (!Judged(x) && forall i | i in s.cases && s.cases[i].ref == ref :: !Current(s.cases[i], x)))
  }

  lemma ContentWriteContents(s: State, ref: Ref, x: Content, next: nat)
    requires Inv(s) && ContentWriteOk(s, ref, x, next)
    ensures ContentsOk(s.(contents := s.contents[ref := x], next := next))
  {
    hide CaseShape, Agrees, PairsOk, CasesOk, Judged;
    var s' := s.(contents := s.contents[ref := x], next := next);
    forall r | r in s'.contents ensures ContentOk(s', r) {
      if r in s.contents {
        assert ContentOk(s, r);
        if Judged(s'.contents[r]) {
          var i :| Standing(s, r, i);
          assert Standing(s', r, i);
        }
      }
    }
  }

  lemma ContentWriteKeeps(s: State, ref: Ref, x: Content, next: nat)
    requires Inv(s) && ContentWriteOk(s, ref, x, next)
    ensures Inv(s.(contents := s.contents[ref := x], next := next))
  {
    ContentWriteContents(s, ref, x, next);
    hide ContentsOk, ContentShape, LogOk;
    var s' := s.(contents := s.contents[ref := x], next := next);
    forall i | i in s'.cases ensures CaseOk(s', i) { assert CaseOk(s, i); }
  }

  /** A revision that was never current before belongs to no case. */
  lemma FreshRevision(s: State, ref: Ref, x: Content)
    requires Inv(s) && (x.source == Some(s.next) || ref !in s.contents)
    ensures forall i | i in s.cases && s.cases[i].ref == ref :: !Current(s.cases[i], x)
  {
    hide ContentsOk, PairsOk, LogOk;
    forall i | i in s.cases && s.cases[i].ref == ref ensures !Current(s.cases[i], x) { assert CaseOk(s, i); }
  }

  lemma UnusedIds(s: State)
    requires Inv(s)
    ensures s.next !in s.cases && forall kind :: Ref(kind, s.next) !in s.contents
  {
    assert forall i | i in s.cases :: CaseOk(s, i);
    assert forall r | r in s.contents :: ContentOk(s, r);
  }

  lemma CreateKeeps(s: State, kind: Kind)
    requires Inv(s)
    ensures Inv(CreateTx(s, kind))
  {
    var ref := Ref(kind, s.next);
    var x := CreateTx(s, kind).contents[ref];
    UnusedIds(s);
    FreshRevision(s, ref, x);
    hide Inv;
    ContentWriteKeeps(s, ref, x, s.next + 1);
  }

  lemma EditKeeps(s: State, ref: Ref)
    requires Inv(s)
    ensures Inv(EditTx(s, ref))
  {
    if EditTx(s, ref) != s {
      var x := EditTx(s, ref).contents[ref];
      assert ContentOk(s, ref);
      FreshRevision(s, ref, x);
      hide Inv;
      ContentWriteKeeps(s, ref, x, s.next + 1);
    }
  }

  /** Deletion and user status leave the judgement of the content alone. */
  lemma ActivityKeeps(s: State, ref: Ref, x: Content)
    requires Inv(s) && ref in s.contents && ContentShape(ref, x, s.next)
    requires x.review == s.contents[ref].review && x.source == s.contents[ref].source && x.overruled == s.contents[ref].overruled
    requires x.body == s.contents[ref].body
    requires ref.kind == Profile || !x.active
    ensures Inv(s.(contents := s.contents[ref := x]))
  {
    assert ContentOk(s, ref);
    forall i | i in s.cases && s.cases[i].ref == ref && i in s.logs && |s.logs[i]| > 0 ensures Agrees(s.cases[i], x, s.logs[i]) {
      assert CaseOk(s, i);
    }
    hide Inv;
    ContentWriteKeeps(s, ref, x, s.next);
    assert s.(contents := s.contents[ref := x], next := s.next) == s.(contents := s.contents[ref := x]);
  }

  lemma DeleteKeeps(s: State, ref: Ref)
    requires Inv(s)
    ensures Inv(DeleteTx(s, ref))
  {
    if ref in s.contents && ref.kind != Profile {
      assert ContentOk(s, ref);
      hide Inv;
      ActivityKeeps(s, ref, s.contents[ref].(publishedAt := None, active := false));
    }
  }

  lemma UserStatusKeeps(s: State, ref: Ref, active: bool)
    requires Inv(s)
    ensures Inv(UserStatusTx(s, ref, active))
  {
    if ref in s.contents && ref.kind == Profile {
      assert ContentOk(s, ref);
      hide Inv;
      ActivityKeeps(s, ref, s.contents[ref].(active := active));
    }
  }

  // ---------- the jobs: superseding and opening ----------

  lemma SupersedeContents(s: State, ref: Ref, keep: Option<nat>, now: nat, erasing: bool)
    requires Inv(s)
    ensures ContentsOk(s.(cases := Supersede(s.cases, ref, keep, now, erasing)))
  {
    hide CasesOk, PairsOk, ContentShape;
    var s' := s.(cases := Supersede(s.cases, ref, keep, now, erasing));
    forall r | r in s'.contents ensures ContentOk(s', r) {
      assert ContentOk(s, r);
      if Judged(s.contents[r]) {
        var i :| Standing(s, r, i);
        assert Standing(s', r, i);
      }
    }
  }

  lemma SupersedePairs(s: State, ref: Ref, keep: Option<nat>, now: nat, erasing: bool)
    requires PairsOk(s)
    ensures PairsOk(s.(cases := Supersede(s.cases, ref, keep, now, erasing)))
  {
    var s' := s.(cases := Supersede(s.cases, ref, keep, now, erasing));
    forall i, j | i in s'.cases && j in s'.cases && i != j && s'.cases[i].ref == s'.cases[j].ref && s'.cases[i].ref in s'.contents
      ensures PairOk(s'.cases[i], s'.cases[j], s'.contents[s'.cases[i].ref])
    {
      assert PairOk(s.cases[i], s.cases[j], s.contents[s.cases[i].ref]);
    }
  }

  lemma ClosedCaseAgrees(c: Case, x: Content, log: seq<Entry>, next: nat, now: nat, erasing: bool)
    requires CaseShape(c, log, next) && Agrees(c, x, log) && c.state == Open
    requires !Current(c, x) || Erasable(c.ref.kind, x, erasing) || (!erasing && !x.active && c.ref.kind != Profile)
    ensures var d := Closed(c, now, erasing); d.ref == c.ref && CaseShape(d, log, next) && Agrees(d, x, log)
  {
  }

  /** Superseding is safe when the superseded cases are of old revisions or of deleted or redacted content. */
  lemma SupersedeKeeps(s: State, ref: Ref, keep: Option<nat>, now: nat, erasing: bool)
    requires Inv(s) && ref in s.contents
    requires keep == s.contents[ref].source || Erasable(ref.kind, s.contents[ref], erasing)
             || (!erasing && !s.contents[ref].active && ref.kind != Profile)
    ensures Inv(s.(cases := Supersede(s.cases, ref, keep, now, erasing)))
  {
    SupersedeContents(s, ref, keep, now, erasing);
    SupersedePairs(s, ref, keep, now, erasing);
    hide ContentsOk, PairsOk, CaseShape, Agrees;
    var s' := s.(cases := Supersede(s.cases, ref, keep, now, erasing));
    forall i | i in s'.cases ensures CaseOk(s', i) {
      assert CaseOk(s, i);
      if Outdated(s.cases[i], ref, keep) { ClosedCaseAgrees(s.cases[i], s.contents[ref], s.logs[i], s.next, now, erasing); }
    }
  }

  lemma SupersedeDeletedKeeps(s: State, ref: Ref, now: nat)
    requires Inv(s)
    ensures Inv(SupersedeDeletedTx(s, ref, now))
  {
    hide Inv, Supersede;
    if ref in s.contents && ref.kind != Profile && !s.contents[ref].active { SupersedeKeeps(s, ref, None, now, false); }
  }

  // ---------- erasure and retention ----------

  /** Redaction leaves what the desk and the author said. */
  lemma RedactionKeeps(s: State, ref: Ref, body: Body)
    requires Inv(s) && ref in s.contents && body != Written
    ensures Inv(s.(contents := s.contents[ref := Redacted(ref.kind, s.contents[ref], body)]))
  {
    var x := Redacted(ref.kind, s.contents[ref], body);
    assert ContentOk(s, ref);
    forall i | i in s.cases && s.cases[i].ref == ref && i in s.logs && |s.logs[i]| > 0 ensures Agrees(s.cases[i], x, s.logs[i]) {
      assert CaseOk(s, i);
    }
    hide Inv;
    ContentWriteKeeps(s, ref, x, s.next);
    assert s.(contents := s.contents[ref := x], next := s.next) == s.(contents := s.contents[ref := x]);
  }

  lemma EraseKeeps(s: State, ref: Ref, now: nat)
    requires Inv(s)
    ensures Inv(EraseTx(s, ref, now))
  {
    hide Inv, Supersede;
    if ref in s.contents {
      RedactionKeeps(s, ref, Erased);
      SupersedeKeeps(s.(contents := s.contents[ref := Redacted(ref.kind, s.contents[ref], Erased)]), ref, None, now, true);
    }
  }

  lemma RetainKeeps(s: State, ref: Ref)
    requires Inv(s)
    ensures Inv(RetainTx(s, ref))
  {
    hide Inv;
    if RetainTx(s, ref) != s { RedactionKeeps(s, ref, Retained); }
  }

  // ---------- a new case ----------

  /** A new open case for the current revision, all other cases of the content being closed. */
  lemma InsertCaseKeeps(s: State, ref: Ref, source: nat)
    requires Inv(s) && ref in s.contents && s.contents[ref].source == Some(source) && s.contents[ref].review == UnderReview
    requires forall i | i in s.cases && s.cases[i].ref == ref :: s.cases[i].source != source && s.cases[i].state != Open
    ensures Inv(State(s.contents, s.cases[s.next := Case(ref, source, Open, None, false)],
                      s.logs[s.next := [Decided(s.next + 1, Queue, None)]], s.next + 2))
  {
    var s' := State(s.contents, s.cases[s.next := Case(ref, source, Open, None, false)],
                    s.logs[s.next := [Decided(s.next + 1, Queue, None)]], s.next + 2);
    UnusedIds(s);
    assert ContentOk(s, ref);
    assert EntryOk(s'.logs[s.next], 0);
    assert LogOk(s'.logs[s.next]);
    hide ContentsOk, PairsOk;
    forall i | i in s'.cases ensures CaseOk(s', i) {
      if i != s.next { assert CaseOk(s, i); }
    }
    InsertContents(s, s');
    InsertPairs(s, s');
  }

  lemma InsertPairs(s: State, s': State)
    requires Inv(s) && s'.contents == s.contents && s.next !in s.cases && s.next in s'.cases && s'.cases == s.cases[s.next := s'.cases[s.next]]
    requires forall i | i in s.cases && s.cases[i].ref == s'.cases[s.next].ref ::
               s.cases[i].source != s'.cases[s.next].source && s.cases[i].state != Open
    requires s'.cases[s.next].ref in s.contents && Current(s'.cases[s.next], s.contents[s'.cases[s.next].ref])
    ensures PairsOk(s')
  {
    hide ContentsOk, CasesOk;
    forall i, j | i in s'.cases && j in s'.cases && i != j && s'.cases[i].ref == s'.cases[j].ref && s'.cases[i].ref in s'.contents
      ensures PairOk(s'.cases[i], s'.cases[j], s'.contents[s'.cases[i].ref])
    {
      if i != s.next && j != s.next { assert PairOk(s.cases[i], s.cases[j], s.contents[s.cases[i].ref]); }
    }
  }

  lemma InsertContents(s: State, s': State)
    requires Inv(s) && s'.contents == s.contents && s.next <= s'.next
    requires forall i | i in s.cases :: i in s'.cases && s'.cases[i] == s.cases[i]
    ensures ContentsOk(s')
  {
    forall r | r in s'.contents ensures ContentOk(s', r) {
      assert ContentOk(s, r);
      if Judged(s.contents[r]) {
        var i :| Standing(s, r, i);
        assert Standing(s', r, i);
      }
    }
  }

  lemma OthersClosed(s: State, ref: Ref, source: nat, now: nat)
    requires !HasCase(s, ref, source)
    ensures var cases := Supersede(s.cases, ref, Some(source), now, false);
            forall i | i in cases && cases[i].ref == ref :: cases[i].source != source && cases[i].state != Open
  {
  }

  lemma OpenCaseKeeps(s: State, ref: Ref, source: nat, now: nat)
    requires Inv(s)
    ensures Inv(OpenCaseTx(s, ref, source, now))
  {
    hide Inv, Supersede;
    if OpenCaseTx(s, ref, source, now) != s {
      OthersClosed(s, ref, source, now);
      SupersedeKeeps(s, ref, Some(source), now, false);
      InsertCaseKeeps(s.(cases := Supersede(s.cases, ref, Some(source), now, false)), ref, source);
    }
  }

  // ---------- the moderator ----------

  /** One entry is appended to an actionable case, and the content follows it. */
  ghost predicate Judgement(s: State, id: nat, e: Entry, c: Case, x: Content) {
    && id in s.cases && id in s.logs && s.cases[id].ref in s.contents
    && s.contents[s.cases[id].ref].active && Current(s.cases[id], s.contents[s.cases[id].ref]) && s.cases[id].state != Superseded
    && c.ref == s.cases[id].ref && c.source == s.cases[id].source && c.state != Superseded
    && x.source == s.contents[c.ref].source && x.active == s.contents[c.ref].active && x.overruled.None? && !c.erased
    && e.id == s.next && LogOk(s.logs[id] + [e])
    && CaseShape(c, s.logs[id] + [e], s.next + 1)
    && ContentShape(c.ref, x, s.next + 1)
    && Agrees(c, x, s.logs[id] + [e])
    && (c.state == Open <==> x.review == UnderReview)
  }

  function Judge(s: State, id: nat, e: Entry, c: Case, x: Content): State
    requires id in s.logs
  {
    State(s.contents[c.ref := x], s.cases[id := c], s.logs[id := s.logs[id] + [e]], s.next + 1)
  }

  lemma JudgeContents(s: State, id: nat, e: Entry, c: Case, x: Content)
    requires Inv(s) && Judgement(s, id, e, c, x)
    ensures ContentsOk(Judge(s, id, e, c, x))
  {
    hide PairsOk, CasesOk, LogOk, CaseShape;
    var s' := Judge(s, id, e, c, x);
    forall r | r in s'.contents ensures ContentOk(s', r) {
      assert ContentOk(s, r);
      if Judged(s'.contents[r]) {
        if r == c.ref {
          assert Standing(s', r, id);
        } else {
          var i :| Standing(s, r, i);
          assert Standing(s', r, i);
        }
      }
    }
  }

  lemma JudgeCases(s: State, id: nat, e: Entry, c: Case, x: Content)
    requires Inv(s) && Judgement(s, id, e, c, x)
    ensures CasesOk(Judge(s, id, e, c, x))
  {
    hide ContentsOk, LogOk, ContentShape;
    var s' := Judge(s, id, e, c, x);
    forall i | i in s'.cases ensures CaseOk(s', i) {
      assert CaseOk(s, i);
      if i != id && s.cases[i].ref == c.ref { assert PairOk(s.cases[i], s.cases[id], s.contents[c.ref]); }
    }
  }

  lemma JudgePairs(s: State, id: nat, e: Entry, c: Case, x: Content)
    requires Inv(s) && Judgement(s, id, e, c, x)
    ensures PairsOk(Judge(s, id, e, c, x))
  {
    hide ContentsOk, LogOk, ContentShape, CasesOk, CaseShape, Agrees;
    var s' := Judge(s, id, e, c, x);
    forall i, j | i in s'.cases && j in s'.cases && i != j && s'.cases[i].ref == s'.cases[j].ref && s'.cases[i].ref in s'.contents
      ensures PairOk(s'.cases[i], s'.cases[j], s'.contents[s'.cases[i].ref])
    {
      assert PairOk(s.cases[i], s.cases[j], s.contents[s.cases[i].ref]);
    }
  }

  lemma JudgeKeeps(s: State, id: nat, e: Entry, c: Case, x: Content)
    requires Inv(s) && Judgement(s, id, e, c, x)
    ensures Inv(Judge(s, id, e, c, x))
  {
    JudgeContents(s, id, e, c, x);
    JudgeCases(s, id, e, c, x);
    JudgePairs(s, id, e, c, x);
  }

  /** A decision appended to the history of a case that is not final. */
  lemma DecidedLog(log: seq<Entry>, e: Entry)
    requires LogOk(log) && !Final(log[|log| - 1]) && e.Decided? && e.cycle == CycleOf(log) && log[|log| - 1].id < e.id
    ensures LogOk(log + [e])
  {
    assert (log + [e])[..|log|] == log;
    assert EntryOk(log + [e], |log|);
    hide LogOk, EntryOk;
    LogGrows(log, e);
  }

  lemma ReopenedLog(log: seq<Entry>, e: Entry)
    requires LogOk(log) && Final(log[|log| - 1]) && e.Reopened? && e.revision.decision == log[|log| - 1].id && log[|log| - 1].id < e.id
    ensures LogOk(log + [e])
  {
    assert EntryOk(log + [e], |log|);
    hide LogOk, EntryOk;
    LogGrows(log, e);
  }

  lemma DecidedContent(ref: Ref, x: Content, o: Outcome, now: nat, next: nat)
    requires ContentShape(ref, x, next) && x.active && x.source.Some?
    ensures ContentShape(ref, x.(review := ModerationState(o), publishedAt := Published(ref.kind, x, o, now), overruled := None), next + 1)
  {
  }

  lemma ReopenedContent(ref: Ref, x: Content, next: nat)
    requires ContentShape(ref, x, next) && x.active && x.source.Some?
    ensures ContentShape(ref, x.(review := UnderReview, publishedAt := if ref.kind == Post then None else x.publishedAt, overruled := None), next + 1)
  {
  }

  lemma DecideJudges(s: State, id: nat, expected: Option<nat>, o: Outcome, accepted: bool, now: nat)
    requires Inv(s) && DecideTx(s, id, expected, o, accepted, now).1 == Done
    ensures var s' := DecideTx(s, id, expected, o, accepted, now).0;
            Judgement(s, id, Decided(s.next, o, expected), s'.cases[id], s'.contents[s.cases[id].ref])
  {
    var log := s.logs[id];
    var ref := s.cases[id].ref;
    assert CaseOk(s, id) && ContentOk(s, ref);
    assert s.cases[id].state == Open && expected == CycleOf(log);
    hide Inv, CaseOk, ContentOk;
    DecidedLog(log, Decided(s.next, o, expected));
    DecidedContent(ref, s.contents[ref], o, now, s.next);
    hide LogOk, ContentShape, CycleOf, Published;
  }

  lemma DecideKeeps(s: State, id: nat, expected: Option<nat>, o: Outcome, accepted: bool, now: nat)
    requires Inv(s)
    ensures Inv(DecideTx(s, id, expected, o, accepted, now).0)
  {
    var (s', reply) := DecideTx(s, id, expected, o, accepted, now);
    if reply == Done {
      DecideJudges(s, id, expected, o, accepted, now);
      hide Inv, Judgement, CycleOf, Published;
      JudgeKeeps(s, id, Decided(s.next, o, expected), s'.cases[id], s'.contents[s.cases[id].ref]);
    }
  }

  lemma LatestIsLast(log: seq<Entry>)
    requires LogOk(log) && Final(log[|log| - 1])
    ensures LatestDecision(log) == Some(log[|log| - 1])
  {
  }

  lemma ReopenJudges(s: State, id: nat, token: Revision)
    requires Inv(s) && ReopenTx(s, id, token).1 == Done
    ensures var s' := ReopenTx(s, id, token).0;
            Judgement(s, id, Reopened(s.next, token), s'.cases[id], s'.contents[s.cases[id].ref])
  {
    var log := s.logs[id];
    var ref := s.cases[id].ref;
    assert CaseOk(s, id) && ContentOk(s, ref);
    assert s.cases[id].state == Resolved;
    hide Inv, CaseOk, ContentOk;
    LatestIsLast(log);
    ReopenedLog(log, Reopened(s.next, token));
    ReopenedContent(ref, s.contents[ref], s.next);
    hide LogOk, ContentShape, LatestDecision;
  }

  lemma ReopenKeeps(s: State, id: nat, token: Revision)
    requires Inv(s)
    ensures Inv(ReopenTx(s, id, token).0)
  {
    var (s', reply) := ReopenTx(s, id, token);
    if reply == Done {
      ReopenJudges(s, id, token);
      hide Inv, Judgement, LatestDecision;
      JudgeKeeps(s, id, Reopened(s.next, token), s'.cases[id], s'.contents[s.cases[id].ref]);
    }
  }

  /** The invariant is inductive. */
  lemma StepKeeps(s: State, e: Event)
    requires Inv(s)
    ensures Inv(Apply(s, e))
  {
    hide Inv, CreateTx, EditTx, DeleteTx, UserStatusTx, OpenCaseTx, SupersedeDeletedTx, EraseTx, RetainTx, DecideTx, ReopenTx;
    match e {
      case Create(kind) => CreateKeeps(s, kind);
      case Edit(ref) => EditKeeps(s, ref);
      case Delete(ref) => DeleteKeeps(s, ref);
      case UserStatus(ref, active) => UserStatusKeeps(s, ref, active);
      case OpenCase(ref, source, now) => OpenCaseKeeps(s, ref, source, now);
      case SupersedeDeleted(ref, now) => SupersedeDeletedKeeps(s, ref, now);
      case Erase(ref, now) => EraseKeeps(s, ref, now);
      case Retain(ref) => RetainKeeps(s, ref);
      case Decide(id, expected, o, accepted, now) => DecideKeeps(s, id, expected, o, accepted, now);
      case Reopen(id, token) => ReopenKeeps(s, id, token);
    }
  }
}
