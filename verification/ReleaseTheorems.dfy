/** What holds over every run of the updater: any order of checks, replies, clicks, timers and page loads. */
module ReleaseTheorems {
  import opened Options
  import opened ReleaseStorage
  import opened ReleaseUpdate
  import opened ReleaseInvariant

  // ---------- one page: single flight, one reload, bounded follow-ups, no ABA ----------

  lemma {:induction false} RunKeepsPage(stored: Stored, identity: string, env: Env, es: seq<Event>)
    ensures PageInv(Run(Open(stored, identity, env), es).page)
  {
    if |es| == 0 {
      LoadKeeps(identity, 0);
    } else {
      RunKeepsPage(stored, identity, env, es[..|es| - 1]);
      StepKeeps(Run(Open(stored, identity, env), es[..|es| - 1]), es[|es| - 1]);
    }
  }

  /** At most one confirmation and one check are ever in flight, their flags say so exactly, a page asks
      for at most one reload, and externally started checks cause at most one follow-up each. */
  lemma SingleFlight(stored: Stored, identity: string, env: Env, es: seq<Event>)
    ensures var p := Run(Open(stored, identity, env), es).page;
            && (forall a, b | a in p.confirms.waiting && b in p.confirms.waiting :: a == b)
            && (p.confirms.confirming <==> p.confirms.waiting != map[])
            && (forall a, b | a in p.checks.waiting && b in p.checks.waiting :: a == b)
            && (p.checks.checking <==> p.checks.waiting != map[])
            && p.confirms.reloads <= 1 && (p.confirms.reloadRequested ==> p.confirms.waiting == map[])
            && p.checks.followUps <= p.checks.finished <= p.checks.started
  {
    RunKeepsPage(stored, identity, env, es);
  }

  /** The reply to a follow-up check never starts another check. */
  lemma FollowUpIsLast(stored: Stored, identity: string, env: Env, es: seq<Event>, id: nat, manifest: Option<string>, env': Env)
    requires var c := Run(Open(stored, identity, env), es).page.checks; id in c.waiting && c.waiting[id]
    requires manifest.Some? ==> ValidId(manifest.value)
    ensures var s := Run(Open(stored, identity, env), es);
            var c := Apply(s, CheckReply(id, manifest, env')).page.checks;
            c.waiting == map[] && !c.checking && c.followUps == s.page.checks.followUps
  {
    RunKeepsPage(stored, identity, env, es);
    var s := Run(Open(stored, identity, env), es);
    assert FollowingUp(s.page.checks);
    assert s.page.checks.waiting - {id} == map[];
    hide Run, Open, PageInv, Observe, TryReload;
    var (q, st) := Observed(CheckOver(s.page, id), s.stored, manifest, env');
    ObserveParts(CheckOver(s.page, id), s.stored, manifest, env');
    TryReloadParts(q.(checks := q.checks.(checking := false)), st, q.goal.target, false, env');
  }

  /** What observing and attempting leave alone. */
  lemma ObserveParts(p: Page, st: Stored, manifest: Option<string>, env: Env)
    ensures var (q, st') := Observed(p, st, manifest, env);
            && q.checks == p.checks && q.confirms == p.confirms && q.current == p.current && q.next == p.next
            && st' in {st, Clear(st, p.current, env.writable)}
  {
    hide Lower, Clear;
  }

  lemma TryReloadParts(p: Page, st: Stored, expected: Option<string>, manual: bool, env: Env)
    ensures var q := TryReload(p, st, expected, manual, env);
            q.checks == p.checks && q.goal == p.goal && q.current == p.current
  {
    hide Attempted;
  }

  /** How one page moves: the generation never falls, an unchanged generation means an unchanged target,
      and a confirmation older than the move keeps its generation. */
  ghost predicate Moves(p: Page, q: Page) {
    && q.current == p.current && p.next <= q.next
    && p.goal.generation <= q.goal.generation
    && (p.goal.generation == q.goal.generation ==> q.goal == p.goal)
    && (forall id | id in q.confirms.waiting && id < p.next ::
          id in p.confirms.waiting && q.confirms.waiting[id].generation == p.confirms.waiting[id].generation)
  }

  lemma MovesTransitive(p: Page, q: Page, r: Page)
    requires Moves(p, q) && Moves(q, r)
    ensures Moves(p, r)
  {
  }

  lemma TryReloadMoves(p: Page, st: Stored, expected: Option<string>, manual: bool, env: Env)
    ensures Moves(p, TryReload(p, st, expected, manual, env))
  {
    hide Attempted;
  }

  lemma ObserveMoves(p: Page, st: Stored, id: string, env: Env)
    ensures Moves(p, Observe(p, st, id, env).0)
  {
    hide Lower, Clear;
  }

  lemma EndConfirmMoves(p: Page, generation: nat)
    ensures Moves(p, EndConfirm(p, generation))
  {
  }

  lemma EndCheckMoves(p: Page, st: Stored, env: Env)
    ensures Moves(p, EndCheck(p, st, env))
  {
    hide TryReload, ValidId;
    var q := p.(checks := p.checks.(checking := false));
    TryReloadMoves(q, st, q.goal.target, false, env);
  }

  lemma CheckReplyMoves(s: Session, id: nat, manifest: Option<string>, env: Env)
    requires id in s.page.checks.waiting
    ensures Moves(s.page, OnCheckReply(s, id, manifest, env).page)
  {
    hide Observe, EndCheck;
    var p := CheckOver(s.page, id);
    var (q, st) := Observed(p, s.stored, manifest, env);
    if manifest.Some? { ObserveMoves(p, s.stored, manifest.value, env); }
    assert Moves(s.page, q);
    EndCheckMoves(q, st, env);
    MovesTransitive(s.page, q, EndCheck(q, st, env));
  }

  lemma ConfirmOverMoves(p: Page, id: nat, g: nat)
    ensures Moves(p, ConfirmOver(p, id)) && Moves(p, EndConfirm(ConfirmOver(p, id), g)) && Moves(p, EndConfirm(Reloading(p, id), g))
  {
    hide EndConfirm;
    EndConfirmMoves(ConfirmOver(p, id), g);
    MovesTransitive(p, ConfirmOver(p, id), EndConfirm(ConfirmOver(p, id), g));
    EndConfirmMoves(Reloading(p, id), g);
    MovesTransitive(p, Reloading(p, id), EndConfirm(Reloading(p, id), g));
  }

  lemma ManifestReplyMoves(s: Session, id: nat, manifest: Option<string>, env: Env)
    requires id in s.page.confirms.waiting
    ensures Moves(s.page, OnManifestReply(s, id, manifest, env).page)
  {
    hide Observe, EndConfirm, Lower;
    var g := s.page.confirms.waiting[id].generation;
    var p := ConfirmOver(s.page, id);
    ConfirmOverMoves(s.page, id, g);
    if manifest.Some? {
      var q := Observe(p, s.stored, manifest.value, env).0;
      ObserveMoves(p, s.stored, manifest.value, env);
      EndConfirmMoves(q, g);
      MovesTransitive(s.page, p, q);
      MovesTransitive(s.page, q, EndConfirm(q, g));
    }
  }

  lemma AssetsReplyMoves(s: Session, id: nat, good: bool, env: Env)
    requires id in s.page.confirms.waiting
    ensures Moves(s.page, OnAssetsReply(s, id, good, env).page)
  {
    hide EndConfirm, MayReload, Remember, Moves;
    ConfirmOverMoves(s.page, id, s.page.confirms.waiting[id].generation);
  }

  lemma AttemptMoves(p: Page, q: Page, st: Stored, manual: bool, env: Env)
    requires q == p.(canReload := q.canReload, retry := q.retry)
    ensures Moves(p, q) && Moves(p, TryReload(q, st, q.goal.target, manual, env))
  {
    hide TryReload;
    TryReloadMoves(q, st, q.goal.target, manual, env);
  }

  /** Starting a check and the reload attempts touch neither the log nor storage. */
  lemma LocalMoves(s: Session, e: Event)
    requires e.Check? || e.SetCanReload? || e.Click? || e.RetryFires? || e.FollowUpSettles?
    ensures Moves(s.page, Apply(s, e).page) && Apply(s, e).stored == s.stored && Apply(s, e).log == s.log
  {
    hide TryReload, ValidId;
    match e {
      case SetCanReload(canReload, env) => AttemptMoves(s.page, s.page.(canReload := canReload), s.stored, false, env);
      case Click(env) => AttemptMoves(s.page, s.page, s.stored, true, env);
      case RetryFires(env) => AttemptMoves(s.page, s.page.(retry := s.page.retry.(timer := false)), s.stored, false, env);
      case _ =>
    }
  }

  lemma StepMoves(s: Session, e: Event)
    requires !e.Load?
    ensures Moves(s.page, Apply(s, e).page)
  {
    hide OnCheckReply, OnManifestReply, OnAssetsReply, TryReload, CheckNow, ValidId;
    match e {
      case CheckReply(id, manifest, env) => if id in s.page.checks.waiting { CheckReplyMoves(s, id, manifest, env); }
      case ManifestReply(id, manifest, env) => if id in s.page.confirms.waiting { ManifestReplyMoves(s, id, manifest, env); }
      case AssetsReply(id, good, env) => if id in s.page.confirms.waiting { AssetsReplyMoves(s, id, good, env); }
      case _ => LocalMoves(s, e);
    }
  }

  lemma {:induction false} RunMoves(s: Session, es: seq<Event>)
    requires forall e | e in es :: !e.Load?
    ensures Moves(s.page, Run(s, es).page)
  {
    if |es| > 0 {
      hide Apply;
      var init := es[..|es| - 1];
      RunMoves(s, init);
      StepMoves(Run(s, init), es[|es| - 1]);
      MovesTransitive(s.page, Run(s, init).page, Run(s, es).page);
    }
  }

  /** ABA safety: when a confirmation is about to reload, then at every earlier moment at which it was in
      flight on the same page the target was already exactly the release it reloads for. */
  lemma ReloadTargetNeverChanged(stored: Stored, identity: string, env: Env, es: seq<Event>, later: seq<Event>, id: nat, env': Env)
    requires forall e | e in later :: !e.Load?
    requires var s := Run(Open(stored, identity, env), es);
             var t := Run(s, later);
             && id in s.page.confirms.waiting && id in t.page.confirms.waiting && t.page.confirms.waiting[id].assets
             && MayReload(t, t.page.confirms.waiting[id], env')
    ensures var s := Run(Open(stored, identity, env), es);
            s.page.goal.available && s.page.goal.target == Some(Run(s, later).page.confirms.waiting[id].expected)
  {
    RunKeepsPage(stored, identity, env, es);
    var s := Run(Open(stored, identity, env), es);
    RunMoves(s, later);
    assert Aims(s.page.goal, s.page.confirms.waiting[id]);
  }

  // ---------- each external check causes at most one follow-up ----------

  ghost predicate StartsFollowUp(s: Session, e: Event) { Apply(s, e).page.checks.followUps > s.page.checks.followUps }

  /** Checks in flight carry numbers that were handed out. */
  ghost predicate Numbered(p: Page) { forall a | a in p.checks.waiting :: a < p.next }

  /** The check is over, and its number is used up. */
  ghost predicate Over(p: Page, id: nat) { id < p.next && id !in p.checks.waiting }

  /** A stretch of script adds at most a check with the next number and at most one follow-up, and that
      only when one was asked for. */
  ghost predicate OneCheckMore(p: Page, q: Page) {
    && p.next <= q.next && Numbered(q)
    && (forall a | a in q.checks.waiting :: a in p.checks.waiting || a == p.next)
    && q.checks.followUps <= p.checks.followUps + (if p.checks.followUpRequested then 1 else 0)
  }

  lemma CheckReplyParts(s: Session, id: nat, manifest: Option<string>, env: Env)
    requires Numbered(s.page) && id in s.page.checks.waiting
    ensures OneCheckMore(s.page, OnCheckReply(s, id, manifest, env).page) && Over(OnCheckReply(s, id, manifest, env).page, id)
  {
    hide Observe, TryReload, ValidId;
    var (q, st) := Observed(CheckOver(s.page, id), s.stored, manifest, env);
    ObserveParts(CheckOver(s.page, id), s.stored, manifest, env);
    var r := q.(checks := q.checks.(checking := false));
    TryReloadParts(r, st, r.goal.target, false, env);
    TryReloadMoves(r, st, r.goal.target, false, env);
  }

  lemma ConfirmReplyParts(s: Session, e: Event)
    requires e.ManifestReply? || e.AssetsReply?
    ensures Apply(s, e).page.checks == s.page.checks && s.page.next <= Apply(s, e).page.next
  {
    StepMoves(s, e);
    hide Observe, MayReload, Remember, Lower, ValidId, Moves;
    if e.ManifestReply? && e.manifest.Some? { ObserveParts(ConfirmOver(s.page, e.id), s.stored, e.manifest, e.env); }
  }

  lemma AttemptParts(s: Session, e: Event)
    requires e.SetCanReload? || e.Click? || e.RetryFires?
    ensures Apply(s, e).page.checks == s.page.checks && s.page.next <= Apply(s, e).page.next
  {
    StepMoves(s, e);
    hide TryReload, ValidId, Moves;
    match e {
      case SetCanReload(canReload, env) => TryReloadParts(s.page.(canReload := canReload), s.stored, s.page.goal.target, false, env);
      case Click(env) => TryReloadParts(s.page, s.stored, s.page.goal.target, true, env);
      case RetryFires(env) => TryReloadParts(s.page.(retry := s.page.retry.(timer := false)), s.stored, s.page.goal.target, false, env);
    }
  }

  lemma ChecksStep(s: Session, e: Event)
    requires Numbered(s.page)
    ensures s.page.next <= Apply(s, e).page.next && Numbered(Apply(s, e).page)
    ensures forall id | Over(s.page, id) :: Over(Apply(s, e).page, id)
    ensures StartsFollowUp(s, e) ==>
              && e.CheckReply? && e.id in s.page.checks.waiting && s.page.checks.followUpRequested
              && Apply(s, e).page.checks.followUps == s.page.checks.followUps + 1 && Over(Apply(s, e).page, e.id)
  {
    match e {
      case CheckReply(id, manifest, env) => if id in s.page.checks.waiting { CheckReplyParts(s, id, manifest, env); }
      case ManifestReply(_, _, _) => ConfirmReplyParts(s, e);
      case AssetsReply(_, _, _) => ConfirmReplyParts(s, e);
      case SetCanReload(_, _) => AttemptParts(s, e);
      case Click(_) => AttemptParts(s, e);
      case RetryFires(_) => AttemptParts(s, e);
      case _ =>
    }
    hide OnCheckReply, OnManifestReply, OnAssetsReply, TryReload, ValidId, Clear, Lower;
  }

  lemma {:induction false} RunNumbered(s: Session, es: seq<Event>)
    requires Numbered(s.page)
    ensures Numbered(Run(s, es).page)
  {
    if |es| > 0 {
      hide Apply, Numbered;
      RunNumbered(s, es[..|es| - 1]);
      ChecksStep(Run(s, es[..|es| - 1]), es[|es| - 1]);
    }
  }

  /** A check that is over stays over, across page loads too. */
  lemma {:induction false} OverForGood(s: Session, es: seq<Event>, i: nat, j: nat, id: nat)
    requires Numbered(s.page) && i <= j <= |es| && Over(Run(s, es[..i]).page, id)
    ensures Over(Run(s, es[..j]).page, id)
    decreases j
  {
    if i < j {
      hide Apply, Numbered, Over;
      OverForGood(s, es, i, j - 1, id);
      RunNumbered(s, es[..j - 1]);
      assert es[..j][..j - 1] == es[..j - 1];
      ChecksStep(Run(s, es[..j - 1]), es[j - 1]);
    }
  }

  /** A follow-up starts only with the reply to an external check, and never two with the same one. */
  lemma OneFollowUpEach(stored: Stored, identity: string, env: Env, es: seq<Event>, i: nat, j: nat)
    requires i < j < |es|
    requires var s := Open(stored, identity, env);
             StartsFollowUp(Run(s, es[..i]), es[i]) && StartsFollowUp(Run(s, es[..j]), es[j])
    ensures es[i].CheckReply? && es[j].CheckReply? && es[i].id != es[j].id
    ensures var c := Run(Open(stored, identity, env), es[..i]).page.checks;
            && es[i].id in c.waiting && !c.waiting[es[i].id]
            && Run(Open(stored, identity, env), es[..i + 1]).page.checks.followUps == c.followUps + 1
  {
    var s := Open(stored, identity, env);
    RunNumbered(s, es[..i]);
    RunNumbered(s, es[..j]);
    RunKeepsPage(stored, identity, env, es[..i]);
    var c := Run(s, es[..i]).page.checks;
    ChecksStep(Run(s, es[..i]), es[i]);
    ChecksStep(Run(s, es[..j]), es[j]);
    assert es[i].id in c.waiting && c.waiting[es[i].id] ==> FollowingUp(c);
    assert es[..i + 1][..i] == es[..i];
    hide Apply, Open, PageInv, Numbered;
    OverForGood(s, es, i + 1, j, es[i].id);
  }

  // ---------- one tab: no reload loop across page loads ----------

  /** An automatic reload for `id` that no load of `id` has answered yet. */
  ghost predicate Unanswered(log: seq<Entry>, id: string) {
    |log| > 0 &&
    var last := log[|log| - 1];
    if last == Loaded(id) then false
    else if last == Reloaded(id, false) then true
    else Unanswered(log[..|log| - 1], id)
  }

  ghost predicate LoadBetween(log: seq<Entry>, i: nat, j: nat, id: string) {
    exists k :: i < k < j && k < |log| && log[k] == Loaded(id)
  }

  /** Between any two automatic reloads for one release lies a load of that release. */
  ghost predicate NoLoop(log: seq<Entry>) {
    forall i: nat, j: nat, id | i < j < |log| && log[i] == Reloaded(id, false) && log[j] == Reloaded(id, false) ::
      LoadBetween(log, i, j, id)
  }

  lemma {:induction false} AnsweredHasLoad(log: seq<Entry>, i: nat, id: string)
    requires i < |log| && log[i] == Reloaded(id, false) && !Unanswered(log, id)
    ensures LoadBetween(log, i, |log|, id)
  {
    var n := |log| - 1;
    if log[n] == Loaded(id) {
    } else {
      assert i < n;
      AnsweredHasLoad(log[..n], i, id);
      var k :| i < k < n && k < |log[..n]| && log[..n][k] == Loaded(id);
      assert log[k] == Loaded(id);
    }
  }

  lemma AppendEntry(log: seq<Entry>, e: Entry)
    requires NoLoop(log)
    requires e.Reloaded? && !e.manual ==> !Unanswered(log, e.id)
    ensures NoLoop(log + [e])
  {
    var l := log + [e];
    forall i: nat, j: nat, id | i < j < |l| && l[i] == Reloaded(id, false) && l[j] == Reloaded(id, false)
      ensures LoadBetween(l, i, j, id)
    {
      if j < |log| {
        assert LoadBetween(log, i, j, id);
        var k :| i < k < j && k < |log| && log[k] == Loaded(id);
        assert l[k] == Loaded(id);
      } else {
        AnsweredHasLoad(log, i, id);
        var k :| i < k < |log| && k < |log| && log[k] == Loaded(id);
        assert l[k] == Loaded(id);
      }
    }
  }

  /** Every unanswered automatic reload is remembered in storage, and the current page's own identity
      has been answered by its load. */
  ghost predicate SessionInv(s: Session) {
    && PageInv(s.page)
    && NoLoop(s.log)
    && !Unanswered(s.log, Lower(s.page.current))
    && (forall id :: Unanswered(s.log, id) ==> id in Read(s.stored))
  }

  ghost predicate OwnClear(s: Session, t: Session) {
    t.log == s.log && t.page.current == s.page.current
    && (t.stored == s.stored || t.stored == Clear(s.stored, s.page.current, true) || t.stored == Clear(s.stored, s.page.current, false))
  }

  ghost predicate GrantsReload(s: Session, e: Event) {
    e.AssetsReply? && e.id in s.page.confirms.waiting && s.page.confirms.waiting[e.id].assets
    && e.good && MayReload(s, s.page.confirms.waiting[e.id], e.env)
  }

  lemma RepliesAreQuiet(s: Session, id: nat, manifest: Option<string>, env: Env)
    ensures id in s.page.checks.waiting ==> OwnClear(s, OnCheckReply(s, id, manifest, env))
    ensures id in s.page.confirms.waiting ==> OwnClear(s, OnManifestReply(s, id, manifest, env))
  {
    hide EndCheck, EndConfirm, Observe, Clear, Lower;
    if id in s.page.checks.waiting {
      CheckReplyMoves(s, id, manifest, env);
      ObserveParts(CheckOver(s.page, id), s.stored, manifest, env);
    }
    if id in s.page.confirms.waiting {
      ManifestReplyMoves(s, id, manifest, env);
      ObserveParts(ConfirmOver(s.page, id), s.stored, manifest, env);
    }
  }

  /** Outside a load and a granted reload, the log is unchanged and storage changes at most by clearing
      the page's own identity. */
  lemma QuietStep(s: Session, e: Event)
    requires !e.Load? && !GrantsReload(s, e)
    ensures OwnClear(s, Apply(s, e))
  {
    hide OnCheckReply, OnManifestReply, MayReload, Clear, ValidId, EndConfirm, TryReload, CheckNow;
    match e {
      case CheckReply(id, manifest, env) => RepliesAreQuiet(s, id, manifest, env);
      case ManifestReply(id, manifest, env) => RepliesAreQuiet(s, id, manifest, env);
      case AssetsReply(id, good, env) => if id in s.page.confirms.waiting { AssetsReplyMoves(s, id, good, env); }
      case _ => LocalMoves(s, e);
    }
  }

  lemma OwnClearKeeps(s: Session, t: Session)
    requires SessionInv(s) && PageInv(t.page) && OwnClear(s, t)
    ensures SessionInv(t)
  {
    hide PageInv, Lower, Clear, Read;
    forall id | Unanswered(t.log, id) ensures id in Read(t.stored) {
      ClearReads(s.stored, s.page.current, true, id);
      ClearReads(s.stored, s.page.current, false, id);
    }
  }

  /** A granted reload: its identity differs from the page's own and is remembered before the page goes. */
  lemma ReloadKeeps(s: Session, id: nat, env: Env)
    requires SessionInv(s) && id in s.page.confirms.waiting && MayReload(s, s.page.confirms.waiting[id], env)
    requires PageInv(OnAssetsReply(s, id, true, env).page)
    ensures SessionInv(OnAssetsReply(s, id, true, env))
  {
    hide EndConfirm, Lower, ValidId, Read, Remember, ConfirmsOk, ChecksOk;
    var c := s.page.confirms.waiting[id];
    var t := OnAssetsReply(s, id, true, env);
    AssetsReplyMoves(s, id, true, env);
    assert Lower(c.expected) == c.expected && ValidId(c.expected) && c.expected != Lower(s.page.current);
    AppendEntry(s.log, Reloaded(c.expected, c.manual));
    assert t.log[..|t.log| - 1] == s.log;
    forall x | Unanswered(t.log, x) ensures x in Read(t.stored) { RememberReads(s.stored, c.expected, env.writable, x); }
  }

  lemma LoadKeepsSession(s: Session, identity: string, env: Env)
    requires NoLoop(s.log) && forall id :: Unanswered(s.log, id) ==> id in Read(s.stored)
    ensures SessionInv(Apply(s, Load(identity, env)))
  {
    hide PageInv, Lower, ValidId, Clear, Read;
    var t := Apply(s, Load(identity, env));
    LoadKeeps(identity, s.page.next);
    AppendEntry(s.log, Loaded(Lower(identity)));
    assert t.log[..|t.log| - 1] == s.log;
    forall id | Unanswered(t.log, id) ensures id in Read(t.stored) { ClearReads(s.stored, identity, env.writable, id); }
  }

  lemma SessionStep(s: Session, e: Event)
    requires SessionInv(s)
    ensures SessionInv(Apply(s, e))
  {
    StepKeeps(s, e);
    if e.Load? {
      SessionParts(s);
      hide Apply, SessionInv;
      LoadKeepsSession(s, e.identity, e.env);
    } else if GrantsReload(s, e) {
      hide SessionInv, PageInv, OnAssetsReply, MayReload;
      ReloadKeeps(s, e.id, e.env);
    } else {
      hide SessionInv, PageInv, Apply, MayReload, OwnClear;
      QuietStep(s, e);
      OwnClearKeeps(s, Apply(s, e));
    }
  }

  lemma SessionParts(s: Session)
    requires SessionInv(s)
    ensures NoLoop(s.log) && forall id :: Unanswered(s.log, id) ==> id in Read(s.stored)
  {
  }

  lemma {:induction false} RunKeepsSession(stored: Stored, identity: string, env: Env, es: seq<Event>)
    ensures SessionInv(Run(Open(stored, identity, env), es))
  {
    if |es| == 0 {
      LoadKeepsSession(Session(NewPage(identity, 0), stored, []), identity, env);
    } else {
      RunKeepsSession(stored, identity, env, es[..|es| - 1]);
      SessionStep(Run(Open(stored, identity, env), es[..|es| - 1]), es[|es| - 1]);
    }
  }

  /** No reload loop: whatever pages the tab is served and whatever its storage held, between any two
      automatic reloads for the same release there is a page load whose identity is that release. */
  lemma NoReloadLoop(stored: Stored, identity: string, env: Env, es: seq<Event>)
    ensures NoLoop(Run(Open(stored, identity, env), es).log)
  {
    RunKeepsSession(stored, identity, env, es);
  }
}
