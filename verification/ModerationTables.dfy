/** Moderation cases, the content they judge, and the per-case history of decisions and reopenings.
    Every function is one committed transaction. Identifiers are drawn fresh from one counter. */
module ModerationTables {
  import opened Options

  datatype Kind = Post | Comment | Profile

  /** A row of the posts, comments or profiles table. */
  datatype Ref = Ref(kind: Kind, id: nat)

  datatype Review = UnderReview | Allowed | Blocked
  datatype Outcome = Allow | Block | Queue
  datatype CaseState = Open | Resolved | Superseded

  /** Whose words a row shows: its author's, or the ones privacy erasure or retention put there. */
  datatype Body = Written | Erased | Retained

  /** `active` is "not deleted" for posts and comments and "the user is active" for profiles.
      `overruled` is history, not a column: the review state that an erasure or a retention run wrote
      over, until the next edit, decision or reopening. */
  datatype Content = Content(review: Review, publishedAt: Option<nat>, source: Option<nat>, active: bool, body: Body, overruled: Option<Review>)

  /** The review state as the desk and the author left it. */
  function Shadow(x: Content): Review { if x.overruled.Some? then x.overruled.value else x.review }

  /** `erased` is history too: an erasure closed the case while it was open. */
  datatype Case = Case(ref: Ref, source: nat, state: CaseState, resolvedAt: Option<nat>, erased: bool)

  /** The optimistic token a re-review must present. */
  datatype Revision = Revision(resolvedAt: nat, source: nat, decision: nat)

  /** One decision, with the review cycle it named, or one reopening, whose id names a new cycle. */
  datatype Entry = Decided(id: nat, outcome: Outcome, cycle: Option<nat>) | Reopened(id: nat, revision: Revision)

  /** `logs` holds each case's decisions and reopenings in commit order. */
  datatype State = State(contents: map<Ref, Content>, cases: map<nat, Case>, logs: map<nat, seq<Entry>>, next: nat)

  datatype Refusal =
    | CaseNotFound | CaseSuperseded | CaseAlreadyResolved | CaseStateConflict | RevisionConflict
    | ProfileEditingUnavailable | DecisionRejected

  datatype Reply = Done | Refused(why: Refusal)

  function ModerationState(o: Outcome): Review {
    match o
    case Allow => Allowed
    case Block => Blocked
    case Queue => UnderReview
  }

  /** The id of the latest reopening: the current review cycle. */
  function CycleOf(log: seq<Entry>): Option<nat> {
    if |log| == 0 then None
    else if log[|log| - 1].Reopened? then Some(log[|log| - 1].id)
    else CycleOf(log[..|log| - 1])
  }

  function LatestDecision(log: seq<Entry>): (r: Option<Entry>)
    ensures r.Some? ==> r.value.Decided? && r.value in log
    ensures r.None? ==> forall e | e in log :: e.Reopened?
  {
    if |log| == 0 then None
    else if log[|log| - 1].Decided? then Some(log[|log| - 1])
    else LatestDecision(log[..|log| - 1])
  }

  // ---------- authors, users and the review job ----------

  /** A new post or comment enters review; a new profile row starts out allowed and unreviewed. */
  function CreateTx(s: State, kind: Kind): State {
    var content := if kind == Profile then Content(Allowed, None, None, true, Written, None) else Content(UnderReview, None, Some(s.next), true, Written, None);
    s.(contents := s.contents[Ref(kind, s.next) := content], next := s.next + 1)
  }

  /** An edit sends the content back to review under a fresh source event. */
  function EditTx(s: State, ref: Ref): State {
    if ref !in s.contents || (ref.kind != Profile && !s.contents[ref].active) then s
    else s.(contents := s.contents[ref := s.contents[ref].(review := UnderReview, publishedAt := None, source := Some(s.next),
                                                           body := Written, overruled := None)],
            next := s.next + 1)
  }

  /** Deletion unpublishes but keeps the moderation state. */
  function DeleteTx(s: State, ref: Ref): State {
    if ref !in s.contents || ref.kind == Profile then s
    else s.(contents := s.contents[ref := s.contents[ref].(publishedAt := None, active := false)])
  }

  /** A user is suspended, deleted or reinstated. */
  function UserStatusTx(s: State, ref: Ref, active: bool): State {
    if ref !in s.contents || ref.kind != Profile then s
    else s.(contents := s.contents[ref := s.contents[ref].(active := active)])
  }

  predicate Outdated(c: Case, ref: Ref, keep: Option<nat>) {
    c.ref == ref && c.state == Open && Some(c.source) != keep
  }

  function Closed(c: Case, now: nat, erasing: bool): Case {
    c.(state := Superseded, resolvedAt := if c.resolvedAt.Some? then c.resolvedAt else Some(now), erased := erasing)
  }

  /** Open cases of one content are superseded, except those of the kept source event. */
  function Supersede(cases: map<nat, Case>, ref: Ref, keep: Option<nat>, now: nat, erasing: bool): map<nat, Case> {
    map i | i in cases :: if Outdated(cases[i], ref, keep) then Closed(cases[i], now, erasing) else cases[i]
  }

  predicate HasCase(s: State, ref: Ref, source: nat) {
    exists i <- s.cases.Keys :: s.cases[i].ref == ref && s.cases[i].source == source
  }

  /** The review job opens a case for the content's current revision, once, with a queue decision. */
  function OpenCaseTx(s: State, ref: Ref, source: nat, now: nat): State {
    if ref !in s.contents || !s.contents[ref].active || s.contents[ref].source != Some(source)
       || s.contents[ref].review != UnderReview || HasCase(s, ref, source) then s
    else s.(cases := Supersede(s.cases, ref, Some(source), now, false)[s.next := Case(ref, source, Open, None, false)],
            logs := s.logs[s.next := [Decided(s.next + 1, Queue, None)]],
            next := s.next + 2)
  }

  /** The clean-up job after a post or comment was deleted. */
  function SupersedeDeletedTx(s: State, ref: Ref, now: nat): State {
    if ref !in s.contents || ref.kind == Profile || s.contents[ref].active then s
    else s.(cases := Supersede(s.cases, ref, None, now, false))
  }

  /** A row is blocked and its words replaced; only posts and comments have a review state to lose. */
  function Redacted(kind: Kind, x: Content, body: Body): Content {
    if kind == Profile then x.(body := body)
    else x.(review := Blocked, publishedAt := None, body := body, overruled := Some(Shadow(x)))
  }

  /** Privacy erasure of one row: its open cases are superseded whether or not it was deleted. */
  function EraseTx(s: State, ref: Ref, now: nat): State {
    if ref !in s.contents then s
    else s.(contents := s.contents[ref := Redacted(ref.kind, s.contents[ref], Erased)], cases := Supersede(s.cases, ref, None, now, true))
  }

  /** The retention run redacts a post once, and leaves its cases alone. */
  function RetainTx(s: State, ref: Ref): State {
    if ref !in s.contents || ref.kind != Post || s.contents[ref].body == Retained then s
    else s.(contents := s.contents[ref := Redacted(Post, s.contents[ref], Retained)])
  }

  // ---------- the moderator ----------

  function Actionable(s: State, id: nat): Reply
    requires id in s.cases
  {
    var c := s.cases[id];
    if c.state == Superseded then Refused(CaseSuperseded)
    else if c.state != Open then Refused(CaseAlreadyResolved)
    else if c.ref !in s.contents || !s.contents[c.ref].active || s.contents[c.ref].source != Some(c.source) then Refused(CaseSuperseded)
    else Done
  }

  function Published(kind: Kind, c: Content, o: Outcome, now: nat): Option<nat> {
    if kind != Post then c.publishedAt
    else if o != Allow then None
    else if c.publishedAt.Some? then c.publishedAt else Some(now)
  }

  /** `decideModeration`. `accepted` is the verdict of the label and publication rules. */
  function DecideTx(s: State, id: nat, expected: Option<nat>, o: Outcome, accepted: bool, now: nat): (State, Reply) {
    if id !in s.cases || id !in s.logs then (s, Refused(CaseNotFound))
    else if Actionable(s, id).Refused? then (s, Actionable(s, id))
    else if expected != CycleOf(s.logs[id]) then (s, Refused(RevisionConflict))
    else if !accepted then (s, Refused(DecisionRejected))
    else
      var c := s.cases[id];
      var content := s.contents[c.ref];
      (State(s.contents[c.ref := content.(review := ModerationState(o), publishedAt := Published(c.ref.kind, content, o, now),
                                              overruled := None)],
             s.cases[id := if o == Queue then c.(resolvedAt := None) else c.(state := Resolved, resolvedAt := Some(now))],
             s.logs[id := s.logs[id] + [Decided(s.next, o, expected)]],
             s.next + 1), Done)
  }

  /** `reopenModerationCase`. */
  function ReopenTx(s: State, id: nat, token: Revision): (State, Reply) {
    if id !in s.cases || id !in s.logs then (s, Refused(CaseNotFound))
    else
      var c := s.cases[id];
      var latest := LatestDecision(s.logs[id]);
      if c.state == Superseded then (s, Refused(CaseSuperseded))
      else if c.state != Resolved then (s, Refused(CaseStateConflict))
      else if latest.None? || c.resolvedAt != Some(token.resolvedAt) || c.source != token.source || latest.value.id != token.decision
      then (s, Refused(RevisionConflict))
      else if c.ref.kind == Profile then (s, Refused(ProfileEditingUnavailable))
      else if c.ref !in s.contents || !s.contents[c.ref].active || s.contents[c.ref].source != Some(c.source)
      then (s, Refused(CaseSuperseded))
      else
        var content := s.contents[c.ref];
        (State(s.contents[c.ref := content.(review := UnderReview, publishedAt := if c.ref.kind == Post then None else content.publishedAt,
                                                overruled := None)],
               s.cases[id := c.(state := Open, resolvedAt := None)],
               s.logs[id := s.logs[id] + [Reopened(s.next, token)]],
               s.next + 1), Done)
  }

  // ---------- runs ----------

  datatype Event =
    | Create(kind: Kind)
    | Edit(ref: Ref)
    | Delete(ref: Ref)
    | UserStatus(ref: Ref, active: bool)
    | OpenCase(ref: Ref, source: nat, now: nat)
    | SupersedeDeleted(ref: Ref, now: nat)
    | Erase(ref: Ref, now: nat)
    | Retain(ref: Ref)
    | Decide(id: nat, expected: Option<nat>, outcome: Outcome, accepted: bool, now: nat)
    | Reopen(id: nat, token: Revision)

  function Init(): State { State(map[], map[], map[], 0) }

  function Apply(s: State, e: Event): State {
    match e
    case Create(kind) => CreateTx(s, kind)
    case Edit(ref) => EditTx(s, ref)
    case Delete(ref) => DeleteTx(s, ref)
    case UserStatus(ref, active) => UserStatusTx(s, ref, active)
    case OpenCase(ref, source, now) => OpenCaseTx(s, ref, source, now)
    case SupersedeDeleted(ref, now) => SupersedeDeletedTx(s, ref, now)
    case Erase(ref, now) => EraseTx(s, ref, now)
    case Retain(ref) => RetainTx(s, ref)
    case Decide(id, expected, o, accepted, now) => DecideTx(s, id, expected, o, accepted, now).0
    case Reopen(id, token) => ReopenTx(s, id, token).0
  }

  function Run(s: State, es: seq<Event>): State {
    if |es| == 0 then s else Apply(Run(s, es[..|es| - 1]), es[|es| - 1])
  }
}
