/** What every stretch of the updater's script keeps. */
module ReleaseInvariant {
  import opened Options
  import opened ReleaseStorage
  import opened ReleaseUpdate

  ghost predicate GoalOk(current: string, g: Goal) {
    && (g.available <==> g.target.Some?)
    && (g.target.Some? ==> Lower(g.target.value) == g.target.value && ValidId(g.target.value) && g.target.value != Lower(current))
  }

  /** A confirmation that carries the current generation still aims at the current target. */
  ghost predicate Aims(g: Goal, c: Confirmation) {
    c.generation <= g.generation && (c.generation == g.generation ==> g.available && g.target == Some(c.expected))
  }

  /** At most one confirmation is in flight, exactly while `confirming` (here a parameter, so that the
      middle of a finally block is covered), and none after a reload was requested. */
  ghost predicate ConfirmsOk(g: Goal, c: Confirms, next: nat, confirming: bool) {
    && (forall a, b | a in c.waiting && b in c.waiting :: a == b)
    && (confirming <==> c.waiting != map[])
    && (forall a | a in c.waiting :: a < next && Aims(g, c.waiting[a]))
    && (c.reloadRequested ==> c.waiting == map[])
    && c.reloads == (if c.reloadRequested then 1 else 0)
  }

  ghost predicate FollowingUp(c: Checks) { c.settling != {} || exists a | a in c.waiting :: c.waiting[a] }

  /** At most one check is in flight, exactly while `checking`; at most one follow-up is alive or
      settling, exactly while it is active, and meanwhile no further follow-up can be requested. */
  ghost predicate ChecksOk(c: Checks, checking: bool, following: bool) {
    && (forall a, b | a in c.waiting && b in c.waiting :: a == b)
    && (forall a, b | a in c.settling && b in c.settling :: a == b)
    && (forall a, b | a in c.settling && b in c.waiting :: !c.waiting[b])
    && (checking <==> c.waiting != map[])
    && (following <==> FollowingUp(c))
    && (c.followUpActive ==> !c.followUpRequested)
    && c.followUps <= c.finished <= c.started
    && (forall a | a in c.waiting && !c.waiting[a] :: c.finished < c.started)
  }

  ghost predicate Shape(p: Page, confirming: bool, checking: bool, following: bool) {
    && GoalOk(p.current, p.goal)
    && ConfirmsOk(p.goal, p.confirms, p.next, confirming)
    && ChecksOk(p.checks, checking, following)
  }

  ghost predicate PageInv(p: Page) { Shape(p, p.confirms.confirming, p.checks.checking, p.checks.followUpActive) }

  // ---------- the parts ----------

  /** Moving the target moves the generation, so no confirmation can come to aim at a target it did
      not start from. */
  lemma RetargetKeepsAims(g: Goal, target: Option<string>, c: Confirms, next: nat, confirming: bool)
    requires ConfirmsOk(g, c, next, confirming)
    ensures ConfirmsOk(Retarget(g, target), c, next, confirming)
  {
    forall a | a in c.waiting ensures Aims(Retarget(g, target), c.waiting[a]) { assert Aims(g, c.waiting[a]); }
  }

  lemma ObserveKeeps(p: Page, st: Stored, id: string, env: Env, c: bool, k: bool, f: bool)
    requires Shape(p, c, k, f) && ValidId(id)
    ensures Shape(Observe(p, st, id, env).0, c, k, f)
  {
    LowerIdempotent(id);
    hide Lower, ValidId, Clear, ConfirmsOk, ChecksOk;
    RetargetKeepsAims(p.goal, Some(Lower(id)), p.confirms, p.next, c);
    RetargetKeepsAims(p.goal, None, p.confirms, p.next, c);
  }

  /** Task numbers only grow. */
  lemma LaterKeeps(g: Goal, c: Confirms, next: nat, next': nat, confirming: bool)
    requires ConfirmsOk(g, c, next, confirming) && next <= next'
    ensures ConfirmsOk(g, c, next', confirming)
  {
  }

  lemma NewConfirmKeeps(g: Goal, c: Confirms, next: nat, manual: bool)
    requires ConfirmsOk(g, c, next, false) && g.available && g.target.Some? && !c.reloadRequested
    ensures ConfirmsOk(g, c.(confirming := true, waiting := c.waiting[next := Confirmation(g.generation, g.target.value, manual, false)]), next + 1, true)
  {
    assert next in c.waiting[next := Confirmation(g.generation, g.target.value, manual, false)];
  }

  lemma TryReloadKeeps(p: Page, st: Stored, manual: bool, env: Env, k: bool, f: bool)
    requires Shape(p, p.confirms.confirming, k, f)
    ensures var q := TryReload(p, st, p.goal.target, manual, env);
            Shape(q, q.confirms.confirming, k, f) && q.checks == p.checks
  {
    hide Lower, ValidId, Attempted, ConfirmsOk, ChecksOk;
    if p.goal.available && !p.confirms.confirming && !p.confirms.reloadRequested {
      NewConfirmKeeps(p.goal, p.confirms, p.next, manual);
    }
  }

  lemma EndConfirmKeeps(p: Page, generation: nat, k: bool, f: bool)
    requires Shape(p, false, k, f)
    ensures var q := EndConfirm(p, generation); Shape(q, q.confirms.confirming, k, f) && q.checks == p.checks
  {
    hide Lower, ValidId, ChecksOk;
  }

  lemma NewCheckKeeps(c: Checks, next: nat, followUp: bool, f: bool)
    requires ChecksOk(c, false, f) && (followUp ==> !f && c.followUps < c.finished)
    ensures ChecksOk(c.(checking := true, waiting := c.waiting[next := followUp],
                        followUps := c.followUps + if followUp then 1 else 0,
                        started := c.started + if followUp then 0 else 1), true, f || followUp)
  {
    assert next in c.waiting[next := followUp] && c.waiting[next := followUp][next] == followUp;
  }

  lemma StartCheckKeeps(p: Page, followUp: bool, env: Env, c: bool, f: bool)
    requires Shape(p, c, false, f) && !p.checks.checking && (followUp ==> !f && p.checks.followUps < p.checks.finished)
    ensures var q := StartCheck(p, followUp, env);
            && Shape(q, c, q.checks.checking, f || (followUp && q.checks.checking))
            && q.confirms == p.confirms && q.checks.followUpActive == p.checks.followUpActive
  {
    hide Lower, ValidId, ConfirmsOk, ChecksOk;
    NewCheckKeeps(p.checks, p.next, followUp, f);
    LaterKeeps(p.goal, p.confirms, p.next, p.next + 1, c);
  }

  lemma SettlingKeeps(c: Checks, next: nat, k: bool)
    requires ChecksOk(c, k, false)
    ensures ChecksOk(c.(settling := c.settling + {next}), k, true)
  {
    assert next in c.settling + {next};
  }

  lemma QueueSettleKeeps(p: Page, c: bool, k: bool)
    requires Shape(p, c, k, false)
    ensures Shape(QueueSettle(p), c, k, true)
  {
    hide Lower, ValidId, ConfirmsOk, ChecksOk;
    SettlingKeeps(p.checks, p.next, k);
    LaterKeeps(p.goal, p.confirms, p.next, p.next + 1, c);
  }

  /** A check just ended and a follow-up was requested: it starts, or settles at once. */
  lemma FollowUpStartsKeeps(p: Page, st: Stored, env: Env)
    requires Shape(p, p.confirms.confirming, false, false) && p.checks.followUpRequested && p.checks.followUps < p.checks.finished
    ensures PageInv(EndCheck(p, st, env))
  {
    hide Lower, ValidId, ConfirmsOk, StartCheck;
    var q := p.(checks := p.checks.(checking := false, followUpRequested := false, followUpActive := true));
    assert FollowingUp(q.checks) == FollowingUp(p.checks);
    StartCheckKeeps(q, true, env, p.confirms.confirming, false);
    var r := StartCheck(q, true, env);
    if !r.checks.checking { QueueSettleKeeps(r, p.confirms.confirming, false); }
  }

  /** A check just ended and no follow-up was requested: a reload may be attempted. */
  lemma CheckEndsKeeps(p: Page, st: Stored, env: Env, f: bool)
    requires Shape(p, p.confirms.confirming, false, f) && !p.checks.followUpRequested
    ensures var q := EndCheck(p, st, env);
            Shape(q, q.confirms.confirming, false, f) && q.checks == p.checks.(checking := false)
  {
    hide Lower, ValidId, ConfirmsOk, TryReload;
    var q := p.(checks := p.checks.(checking := false));
    assert FollowingUp(q.checks) == FollowingUp(p.checks);
    if q.goal.available && q.canReload { TryReloadKeeps(q, st, false, env, false, f); }
  }

  // ---------- the events ----------

  lemma CheckOverKeeps(p: Page, id: nat)
    requires PageInv(p) && id in p.checks.waiting
    ensures var q := CheckOver(p, id);
            && Shape(q, q.confirms.confirming, false, p.checks.followUpActive && !p.checks.waiting[id])
            && (p.checks.waiting[id] ==> p.checks.followUpActive)
            && (q.checks.followUpRequested ==> !p.checks.followUpActive && q.checks.followUps < q.checks.finished)
  {
    hide Lower, ValidId, ConfirmsOk;
    assert p.checks.waiting - {id} == map[];
  }

  lemma ObservedKeeps(p: Page, st: Stored, manifest: Option<string>, env: Env, c: bool, k: bool, f: bool)
    requires Shape(p, c, k, f) && (manifest.Some? ==> ValidId(manifest.value))
    ensures var q := Observed(p, st, manifest, env).0; Shape(q, c, k, f) && q.checks == p.checks && q.confirms == p.confirms
  {
    hide Lower, ValidId, Shape, Clear;
    if manifest.Some? { ObserveKeeps(p, st, manifest.value, env, c, k, f); }
  }

  lemma CheckReplyKeeps(s: Session, id: nat, manifest: Option<string>, env: Env)
    requires PageInv(s.page) && id in s.page.checks.waiting && (manifest.Some? ==> ValidId(manifest.value))
    ensures PageInv(OnCheckReply(s, id, manifest, env).page)
  {
    hide EndCheck, Shape, Observed;
    var followUp := s.page.checks.waiting[id];
    var p := CheckOver(s.page, id);
    CheckOverKeeps(s.page, id);
    var (q, st) := Observed(p, s.stored, manifest, env);
    ObservedKeeps(p, s.stored, manifest, env, p.confirms.confirming, false, s.page.checks.followUpActive && !followUp);
    if q.checks.followUpRequested {
      FollowUpStartsKeeps(q, st, env);
    } else {
      CheckEndsKeeps(q, st, env, s.page.checks.followUpActive && !followUp);
      if followUp { QueueSettleKeeps(EndCheck(q, st, env), EndCheck(q, st, env).confirms.confirming, false); }
    }
  }

  lemma ConfirmOverKeeps(p: Page, id: nat)
    requires PageInv(p) && id in p.confirms.waiting
    ensures Shape(ConfirmOver(p, id), false, p.checks.checking, p.checks.followUpActive)
    ensures Shape(Reloading(p, id), false, p.checks.checking, p.checks.followUpActive)
  {
    hide Lower, ValidId, ChecksOk;
    assert p.confirms.waiting - {id} == map[];
  }

  /** A confirmation moves to its second await under the same aim. */
  lemma AdvanceKeeps(p: Page, id: nat, candidate: string)
    requires PageInv(p) && id in p.confirms.waiting && candidate == p.confirms.waiting[id].expected
    ensures PageInv(Advance(p, id, candidate))
  {
    hide Lower, ValidId, ChecksOk;
    var q := Advance(p, id, candidate);
    assert id in q.confirms.waiting;
    forall a | a in q.confirms.waiting ensures Aims(q.goal, q.confirms.waiting[a]) { assert Aims(p.goal, p.confirms.waiting[a]); }
  }

  lemma ManifestReplyKeeps(s: Session, id: nat, manifest: Option<string>, env: Env)
    requires PageInv(s.page) && id in s.page.confirms.waiting && (manifest.Some? ==> ValidId(manifest.value))
    ensures PageInv(OnManifestReply(s, id, manifest, env).page)
  {
    var p := s.page;
    var c := p.confirms.waiting[id];
    var k, f := p.checks.checking, p.checks.followUpActive;
    assert Aims(p.goal, c) && GoalOk(p.current, p.goal);
    hide EndConfirm, Observe, Shape, Lower, ValidId;
    ConfirmOverKeeps(p, id);
    if p.goal.generation != c.generation || manifest.None? {
      EndConfirmKeeps(ConfirmOver(p, id), c.generation, k, f);
    } else if Lower(manifest.value) == Lower(p.current) || Lower(manifest.value) != Lower(c.expected) {
      var (q, st) := Observe(ConfirmOver(p, id), s.stored, manifest.value, env);
      ObservedKeeps(ConfirmOver(p, id), s.stored, manifest, env, false, k, f);
      EndConfirmKeeps(q, c.generation, k, f);
    } else {
      AdvanceKeeps(p, id, Lower(manifest.value));
    }
  }

  lemma AssetsReplyKeeps(s: Session, id: nat, good: bool, env: Env)
    requires PageInv(s.page) && id in s.page.confirms.waiting
    ensures PageInv(OnAssetsReply(s, id, good, env).page)
  {
    hide EndConfirm, Shape, MayReload, Remember;
    var g := s.page.confirms.waiting[id].generation;
    ConfirmOverKeeps(s.page, id);
    EndConfirmKeeps(ConfirmOver(s.page, id), g, s.page.checks.checking, s.page.checks.followUpActive);
    EndConfirmKeeps(Reloading(s.page, id), g, s.page.checks.checking, s.page.checks.followUpActive);
  }

  lemma CheckKeeps(p: Page, env: Env)
    requires PageInv(p)
    ensures PageInv(CheckNow(p, env))
  {
    hide Lower, ValidId, ConfirmsOk, StartCheck;
    if !p.checks.checking {
      StartCheckKeeps(p, false, env, p.confirms.confirming, p.checks.followUpActive);
    } else if !p.checks.followUpActive {
      assert FollowingUp(p.checks.(followUpRequested := true)) == FollowingUp(p.checks);
    }
  }

  lemma SettleKeeps(p: Page, id: nat)
    requires PageInv(p) && id in p.checks.settling
    ensures PageInv(p.(checks := p.checks.(settling := p.checks.settling - {id}, followUpActive := false)))
  {
    hide Lower, ValidId, ConfirmsOk;
    assert p.checks.settling - {id} == {};
  }

  /** The reload attempts: a changed permission, a click, a fired retry timer. */
  lemma AttemptKeeps(p: Page, q: Page, st: Stored, manual: bool, env: Env)
    requires PageInv(p) && q == p.(canReload := q.canReload, retry := q.retry)
    ensures PageInv(q) && PageInv(TryReload(q, st, q.goal.target, manual, env))
  {
    hide TryReload, Lower, ValidId, ConfirmsOk, ChecksOk;
    TryReloadKeeps(q, st, manual, env, p.checks.checking, p.checks.followUpActive);
  }

  lemma LoadKeeps(identity: string, next: nat)
    ensures PageInv(NewPage(identity, next))
  {
  }

  /** Every event keeps the page invariant. */
  lemma StepKeeps(s: Session, e: Event)
    requires PageInv(s.page)
    ensures PageInv(Apply(s, e).page)
  {
    hide PageInv, OnCheckReply, OnManifestReply, OnAssetsReply, TryReload, CheckNow, NewPage, Clear, Lower, ValidId;
    if !WellFormed(e) { return; }
    match e {
      case Load(identity, env) => LoadKeeps(identity, s.page.next);
      case Check(env) => CheckKeeps(s.page, env);
      case CheckReply(id, manifest, env) => if id in s.page.checks.waiting { CheckReplyKeeps(s, id, manifest, env); }
      case FollowUpSettles(id) => if id in s.page.checks.settling { SettleKeeps(s.page, id); }
      case SetCanReload(canReload, env) => AttemptKeeps(s.page, s.page.(canReload := canReload), s.stored, false, env);
      case Click(env) => AttemptKeeps(s.page, s.page, s.stored, true, env);
      case RetryFires(env) => AttemptKeeps(s.page, s.page.(retry := s.page.retry.(timer := false)), s.stored, false, env);
      case ManifestReply(id, manifest, env) => if id in s.page.confirms.waiting { ManifestReplyKeeps(s, id, manifest, env); }
      case AssetsReply(id, good, env) => if id in s.page.confirms.waiting { AssetsReplyKeeps(s, id, good, env); }
    }
  }
}
