/** The moderator's two operations as the admin Worker performs them: row by row, each guarded update
    checked by the number of rows it hit. A refusal anywhere rolls the transaction back. */
module ModerationDesk {
  import opened Options
  import opened ModerationTables
  import opened ModerationInvariant

  class Desk {
    var contents: map<Ref, Content>
    var cases: map<nat, Case>
    var logs: map<nat, seq<Entry>>
    var next: nat

    ghost function View(): State
      reads this
    {
      State(contents, cases, logs, next)
    }

    /** The guarded update of the case row; false when it hit no row. */
    method UpdateCase(id: nat, from: CaseState, source: nat, row: Case) returns (hit: bool)
      modifies this`cases
      ensures hit <==> id in old(cases) && old(cases)[id].state == from && old(cases)[id].source == source
      ensures cases == if hit then old(cases)[id := row] else old(cases)
    {
      hit := id in cases && cases[id].state == from && cases[id].source == source;
      if hit { cases := cases[id := row]; }
    }

    /** The guarded update of the content row; profiles are not checked for activity here. */
    method UpdateContent(ref: Ref, source: nat, row: Content) returns (hit: bool)
      modifies this`contents
      ensures hit <==> ref in old(contents) && old(contents)[ref].source == Some(source) && (ref.kind == Profile || old(contents)[ref].active)
      ensures contents == if hit then old(contents)[ref := row] else old(contents)
    {
      hit := ref in contents && contents[ref].source == Some(source) && (ref.kind == Profile || contents[ref].active);
      if hit { contents := contents[ref := row]; }
    }

    /** `decideModeration`: no guarded update that follows the checks can miss. */
    method DecideCase(id: nat, expected: Option<nat>, o: Outcome, accepted: bool, now: nat) returns (reply: Reply)
      requires Inv(View())
      modifies this
      ensures (View(), reply) == DecideTx(old(View()), id, expected, o, accepted, now)
      ensures Inv(View())
    {
      DecideKeeps(View(), id, expected, o, accepted, now);
      hide Inv, CycleOf, Published;
      if id !in cases || id !in logs { return Refused(CaseNotFound); }
      var c := cases[id];
      if c.state == Superseded { return Refused(CaseSuperseded); }
      if c.state != Open { return Refused(CaseAlreadyResolved); }
      if c.ref !in contents || !contents[c.ref].active || contents[c.ref].source != Some(c.source) { return Refused(CaseSuperseded); }
      if expected != CycleOf(logs[id]) { return Refused(RevisionConflict); }
      if !accepted { return Refused(DecisionRejected); }
      logs := logs[id := logs[id] + [Decided(next, o, expected)]];
      next := next + 1;
      var row := if o == Queue then c.(resolvedAt := None) else c.(state := Resolved, resolvedAt := Some(now));
      var hit := UpdateCase(id, Open, c.source, row);
      assert hit;
      var x := contents[c.ref];
      hit := UpdateContent(c.ref, c.source, x.(review := ModerationState(o), publishedAt := Published(c.ref.kind, x, o, now), overruled := None));
      assert hit;
      reply := Done;
    }

    /** `reopenModerationCase`. */
    method ReopenCase(id: nat, token: Revision) returns (reply: Reply)
      requires Inv(View())
      modifies this
      ensures (View(), reply) == ReopenTx(old(View()), id, token)
      ensures Inv(View())
    {
      ReopenKeeps(View(), id, token);
      hide Inv, LatestDecision;
      if id !in cases || id !in logs { return Refused(CaseNotFound); }
      var c := cases[id];
      if c.state == Superseded { return Refused(CaseSuperseded); }
      if c.state != Resolved { return Refused(CaseStateConflict); }
      var latest := LatestDecision(logs[id]);
      if latest.None? || c.resolvedAt != Some(token.resolvedAt) || c.source != token.source || latest.value.id != token.decision {
        return Refused(RevisionConflict);
      }
      if c.ref.kind == Profile { return Refused(ProfileEditingUnavailable); }
      if c.ref !in contents || !contents[c.ref].active || contents[c.ref].source != Some(c.source) { return Refused(CaseSuperseded); }
      var hit := UpdateCase(id, Resolved, token.source, c.(state := Open, resolvedAt := None));
      assert hit;
      var x := contents[c.ref];
      hit := UpdateContent(c.ref, token.source, x.(review := UnderReview, publishedAt := if c.ref.kind == Post then None else x.publishedAt,
                                                         overruled := None));
      assert hit;
      logs := logs[id := logs[id] + [Reopened(next, token)]];
      next := next + 1;
      reply := Done;
    }
  }
}
