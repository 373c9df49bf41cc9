/** What the updater's events answer, in every reachable state: exactly when a check or a confirmation
    starts, goes on or ends in a reload, and what each leaves. Everything is said of the page's fields and
    of the identities read back from storage. */
module ReleaseAnswers {
  import opened Options
  import opened ReleaseStorage
  import opened ReleaseUpdate
  import opened ReleaseInvariant
  import opened ReleaseTheorems

  // ---------- starting a confirmation ----------

  /** An update is on offer and may be loaded, none is being confirmed or loaded, the browser is online and
      its storage writable; unless the user asked for it, no retry is waiting and the release was not
      attempted before. */
  ghost predicate Willing(p: Page, st: Stored, env: Env, manual: bool) {
    && p.goal.available && p.goal.target.Some? && p.canReload
    && p.confirms.waiting == map[] && !p.confirms.reloadRequested
    && env.online && env.probe
    && (manual || (!p.retry.timer && p.goal.target.value !in Read(st)))
  }

  /** One confirmation more, for the release on offer. */
  ghost predicate Starts(p: Page, q: Page, manual: bool) {
    && p.goal.target.Some? && p.next < q.next
    && q.confirms == Confirms(true, p.confirms.reloadRequested,
         p.confirms.waiting[p.next := Confirmation(p.goal.generation, p.goal.target.value, manual, false)], p.confirms.reloads)
  }

  /** Nothing about confirmations has changed. */
  ghost predicate Idles(p: Page, q: Page) { q.confirms == p.confirms }

  ghost predicate Consistent(p: Page) { GoalOk(p.current, p.goal) && ConfirmsOk(p.goal, p.confirms, p.next, p.confirms.confirming) }

  lemma AttemptTells(p: Page, st: Stored, manual: bool, env: Env)
    requires Consistent(p)
    ensures var q := TryReload(p, st, p.goal.target, manual, env);
            && (if Willing(p, st, env, manual) then Starts(p, q, manual) else Idles(p, q))
            && q.retry == (if manual then IDLE else p.retry)
            && q.current == p.current && q.goal == p.goal && q.canReload == p.canReload && q.checks == p.checks
  {
    hide Aims, Lower;
  }

  /** A manifest has been seen: the page's own release clears the offer, the retry and its own attempt; any
      other one is on offer; and the generation moves exactly when the offer does. */
  ghost predicate Sees(p: Page, st: Stored, id: string, env: Env, q: Page, st': Stored) {
    if Lower(id) == Lower(p.current) then
      && q == p.(goal := Goal(false, None, p.goal.generation + if p.goal.available then 1 else 0), retry := IDLE)
      && st' == Clear(st, p.current, env.writable)
    else
      && q == p.(goal := Goal(true, Some(Lower(id)), p.goal.generation + if p.goal.target == Some(Lower(id)) then 0 else 1))
      && st' == st
  }

  lemma ObserveSees(p: Page, st: Stored, id: string, env: Env)
    requires GoalOk(p.current, p.goal)
    ensures var (q, st') := Observe(p, st, id, env); Sees(p, st, id, env, q, st')
  {
    hide Lower, ValidId, Clear;
  }

  /** The page and storage once a check's reply has been seen. */
  ghost function Seen(s: Session, id: nat, manifest: Option<string>, env: Env): (Page, Stored)
    requires id in s.page.checks.waiting
  {
    var p := CheckOver(s.page, id);
    var (q, st) := Observed(p, s.stored, manifest, env);
    (q.(checks := q.checks.(checking := false)), st)
  }

  lemma SeenSees(s: Session, id: nat, manifest: Option<string>, env: Env)
    requires PageInv(s.page) && id in s.page.checks.waiting && WellFormed(CheckReply(id, manifest, env))
    ensures var (q, st) := Seen(s, id, manifest, env);
            var p := s.page.(checks := q.checks);
            && Consistent(q)
            && q.checks == s.page.checks.(checking := false, waiting := s.page.checks.waiting - {id},
                                          finished := s.page.checks.finished + if s.page.checks.waiting[id] then 0 else 1)
            && if manifest.None? then q == p && st == s.stored else Sees(p, s.stored, manifest.value, env, q, st)
  {
    hide Lower, ValidId, Clear, ChecksOk;
    if manifest.Some? {
      ObserveSees(CheckOver(s.page, id), s.stored, manifest.value, env);
      ObserveKeepsGoal(CheckOver(s.page, id), s.stored, manifest.value, env);
    }
    hide Observe, Aims;
  }

  lemma ObserveKeepsGoal(p: Page, st: Stored, id: string, env: Env)
    requires Consistent(p) && ValidId(id)
    ensures Consistent(Observe(p, st, id, env).0)
  {
    LowerIdempotent(id);
    hide Lower, ValidId, Clear, ConfirmsOk;
    RetargetKeepsAims(p.goal, Some(Lower(id)), p.confirms, p.next, p.confirms.confirming);
    RetargetKeepsAims(p.goal, None, p.confirms, p.next, p.confirms.confirming);
  }

  /** The moments at which a confirmation starts. */
  ghost predicate Begins(s: Session, e: Event) {
    match e
    case Click(env) => Willing(s.page, s.stored, env, true)
    case SetCanReload(b, env) => Willing(s.page.(canReload := b), s.stored, env, false)
    case RetryFires(env) => s.page.retry.timer && Willing(s.page.(retry := Retry(false, s.page.retry.delay)), s.stored, env, false)
    case CheckReply(id, manifest, env) =>
      && id in s.page.checks.waiting && !s.page.checks.followUpRequested
      && Willing(Seen(s, id, manifest, env).0, Seen(s, id, manifest, env).1, env, false)
    case _ => false
  }

  ghost predicate StartsOne(s: Session, s': Session) {
    exists id :: id in s'.page.confirms.waiting && id !in s.page.confirms.waiting
  }

  lemma NewOne(p: Page, q: Page, p0: Page, manual: bool)
    requires ConfirmsOk(p.goal, p.confirms, p.next, p.confirms.confirming) && p.confirms == p0.confirms
    ensures Starts(p, q, manual) ==> exists id :: id in q.confirms.waiting && id !in p0.confirms.waiting
    ensures q.confirms == p.confirms ==> !exists id :: id in q.confirms.waiting && id !in p0.confirms.waiting
  {
    if Starts(p, q, manual) { assert p.next in q.confirms.waiting && p.next !in p0.confirms.waiting; }
  }

  lemma LocalStarts(s: Session, e: Event)
    requires PageInv(s.page) && (e.Click? || e.SetCanReload? || e.RetryFires?)
    ensures StartsOne(s, Apply(s, e)) <==> Begins(s, e)
    ensures Begins(s, e) ==> Starts(s.page, Apply(s, e).page, e.Click?)
    ensures !Begins(s, e) ==> Idles(s.page, Apply(s, e).page)
  {
    hide TryReload, ValidId, Aims, GoalOk, ChecksOk, ConfirmsOk;
    assert Consistent(s.page);
    var p := s.page;
    match e {
      case Click(env) => AttemptTells(p, s.stored, true, env);
      case SetCanReload(b, env) => p := p.(canReload := b); assert Consistent(p); AttemptTells(p, s.stored, false, env);
      case RetryFires(env) => p := p.(retry := p.retry.(timer := false)); assert Consistent(p); AttemptTells(p, s.stored, false, env);
    }
    ConfirmingMeansWaiting(s.page);
    NewOne(s.page, Apply(s, e).page, s.page, e.Click?);
    hide Consistent;
  }

  lemma ConfirmingMeansWaiting(p: Page)
    requires PageInv(p)
    ensures p.confirms.confirming <==> p.confirms.waiting != map[]
    ensures p.goal.available <==> p.goal.target.Some?
    ensures Consistent(p)
  {
  }

  /** The tail of a check: a follow-up that was asked for comes first, else the offer is tried. */
  lemma CheckEnds(s: Session, id: nat, manifest: Option<string>, env: Env)
    requires PageInv(s.page) && id in s.page.checks.waiting && WellFormed(CheckReply(id, manifest, env))
    ensures var s' := Apply(s, CheckReply(id, manifest, env));
            var (q, st) := Seen(s, id, manifest, env);
            && s'.stored == st && s'.log == s.log
            && (if !s.page.checks.followUpRequested && Willing(q, st, env, false) then Starts(q, s'.page, false) else Idles(q, s'.page))
            && s'.page.goal == q.goal && s'.page.retry == q.retry && s'.page.canReload == q.canReload && s'.page.current == q.current
  {
    SeenSees(s, id, manifest, env);
    var (q, st) := Seen(s, id, manifest, env);
    AttemptTells(q, st, false, env);
    ConfirmingMeansWaiting(s.page);
    hide TryReload, Observe, ValidId, Lower, Sees, Consistent, PageInv, Clear, CheckOver;
    assert q == Observed(CheckOver(s.page, id), s.stored, manifest, env).0.(checks := q.checks);
  }

  lemma CheckStarts(s: Session, id: nat, manifest: Option<string>, env: Env)
    requires PageInv(s.page) && id in s.page.checks.waiting && WellFormed(CheckReply(id, manifest, env))
    ensures var e := CheckReply(id, manifest, env); StartsOne(s, Apply(s, e)) <==> Begins(s, e)
  {
    CheckEnds(s, id, manifest, env);
    SeenSees(s, id, manifest, env);
    var q := Seen(s, id, manifest, env).0;
    hide ValidId, Clear, Lower, PageInv, Apply, Willing, Starts, Seen;
    NewOne(q, Apply(s, CheckReply(id, manifest, env)).page, s.page, false);
    hide Consistent;
  }

  lemma OthersStartNone(s: Session, e: Event)
    requires PageInv(s.page) && WellFormed(e) && (e.Load? || e.Check? || e.FollowUpSettles? || e.ManifestReply? || e.AssetsReply?)
    ensures !StartsOne(s, Apply(s, e))
  {
    hide ValidId, Clear, Lower, PageInv, TryReload, MayReload, Remember;
    if e.ManifestReply? && e.manifest.Some? { ObserveParts(ConfirmOver(s.page, e.id), s.stored, e.manifest, e.env); }
    hide Observe;
  }

  /** In every reachable state, an event starts a confirmation if and only if it is a click, a permission, a
      retry or a check's reply that finds the page willing. */
  lemma StartsExactly(stored: Stored, identity: string, env: Env, es: seq<Event>, e: Event)
    requires WellFormed(e)
    ensures var s := Run(Open(stored, identity, env), es);
            StartsOne(s, Apply(s, e)) <==> Begins(s, e)
  {
    var s := Run(Open(stored, identity, env), es);
    RunKeepsPage(stored, identity, env, es);
    hide Run, Open, PageInv, Apply, Begins;
    if e.CheckReply? {
      if e.id in s.page.checks.waiting { CheckStarts(s, e.id, e.manifest, e.env); } else { UnknownReply(s, e); }
    } else if e.Click? || e.SetCanReload? || e.RetryFires? {
      LocalStarts(s, e);
    } else {
      OthersStartNone(s, e);
      NeverBegins(s, e);
    }
  }

  lemma NeverBegins(s: Session, e: Event)
    requires e.Load? || e.Check? || e.FollowUpSettles? || e.ManifestReply? || e.AssetsReply?
    ensures !Begins(s, e)
  {
  }

  lemma UnknownReply(s: Session, e: Event)
    requires e.CheckReply? && e.id !in s.page.checks.waiting
    ensures Apply(s, e) == s && !Begins(s, e)
  {
  }

  // ---------- checks ----------

  /** An external check starts exactly when none runs, the page knows its release and the browser is online;
      while one runs, a follow-up is asked for, unless one is under way. */
  lemma CheckExactly(s: Session, env: Env)
    ensures var s' := Apply(s, Check(env));
            var k, k' := s.page.checks, s'.page.checks;
            && s' == s.(page := s.page.(checks := k', next := s'.page.next))
            && (if k.checking then s'.page.next == s.page.next && k' == k.(followUpRequested := k.followUpRequested || !k.followUpActive)
                else if ValidId(s.page.current) && env.online
                then s'.page.next == s.page.next + 1 && k' == k.(checking := true, waiting := k.waiting[s.page.next := false], started := k.started + 1)
                else s' == s)
  {
    hide ValidId;
  }

  /** A queued follow-up settles once, and only then may another be asked for. */
  lemma SettleExactly(s: Session, id: nat)
    ensures var s' := Apply(s, FollowUpSettles(id));
            if id in s.page.checks.settling
            then s' == s.(page := s.page.(checks := s.page.checks.(settling := s.page.checks.settling - {id}, followUpActive := false)))
            else s' == s
  {
  }

  /** A check's reply is seen, and then: a follow-up that was asked for starts, or settles at once where it
      cannot; else no check is left. A follow-up's own reply queues its settling. */
  lemma ReplyExactly(stored: Stored, identity: string, env: Env, es: seq<Event>, id: nat, manifest: Option<string>, env': Env)
    requires var s := Run(Open(stored, identity, env), es);
             id in s.page.checks.waiting && WellFormed(CheckReply(id, manifest, env'))
    ensures var s := Run(Open(stored, identity, env), es);
            var s' := Apply(s, CheckReply(id, manifest, env'));
            var k, k' := s.page.checks, s'.page.checks;
            var goes := k.followUpRequested && ValidId(s.page.current) && env'.online;
            && k'.checking == goes && !k'.followUpRequested && k'.followUpActive == (k.followUpActive || k.followUpRequested)
            && (if goes then |k'.waiting| == 1 && (forall a | a in k'.waiting :: k'.waiting[a]) else k'.waiting == map[])
            && k'.followUps == k.followUps + (if goes then 1 else 0) && k'.started == k.started
            && k'.finished == k.finished + (if k.waiting[id] then 0 else 1)
            && (k'.settling == {} <==> k.settling == {} && !k.waiting[id] && (k.followUpRequested ==> goes))
  {
    var s := Run(Open(stored, identity, env), es);
    RunKeepsPage(stored, identity, env, es);
    OnlyCheck(s.page, id);
    hide Run, Open, PageInv;
    ReplyTells(s, id, manifest, env');
  }

  lemma OnlyCheck(p: Page, id: nat)
    requires PageInv(p) && id in p.checks.waiting
    ensures p.checks.waiting - {id} == map[] && (p.checks.waiting[id] ==> !p.checks.followUpRequested)
  {
    assert p.checks.waiting[id] ==> FollowingUp(p.checks);
  }

  lemma ReplyTells(s: Session, id: nat, manifest: Option<string>, env: Env)
    requires id in s.page.checks.waiting && WellFormed(CheckReply(id, manifest, env))
    requires s.page.checks.waiting - {id} == map[] && (s.page.checks.waiting[id] ==> !s.page.checks.followUpRequested)
    ensures var s' := Apply(s, CheckReply(id, manifest, env));
            var k, k' := s.page.checks, s'.page.checks;
            var goes := k.followUpRequested && ValidId(s.page.current) && env.online;
            && k'.checking == goes && !k'.followUpRequested && k'.followUpActive == (k.followUpActive || k.followUpRequested)
            && (if goes then |k'.waiting| == 1 && (forall a | a in k'.waiting :: k'.waiting[a]) else k'.waiting == map[])
            && k'.followUps == k.followUps + (if goes then 1 else 0) && k'.started == k.started
            && k'.finished == k.finished + (if k.waiting[id] then 0 else 1)
            && (k'.settling == {} <==> k.settling == {} && !k.waiting[id] && (k.followUpRequested ==> goes))
  {
    ObserveParts(CheckOver(s.page, id), s.stored, manifest, env);
    var (q, st) := Observed(CheckOver(s.page, id), s.stored, manifest, env);
    var r := q.(checks := q.checks.(checking := false));
    TryReloadParts(r, st, r.goal.target, false, env);
    hide Observe, TryReload, ValidId, Clear;
    var one: map<nat, bool> := map[];
    assert |one[q.next := true]| == 1;
  }

  // ---------- confirmations ----------

  /** A retry is scheduled when the offer moved during the confirmation and may still be loaded; the wait
      doubles each time, up to five seconds. */
  ghost predicate Reschedules(p: Page, generation: nat, retry: Retry) {
    if p.goal.generation != generation && p.goal.available && p.canReload && !p.confirms.reloadRequested && !p.retry.timer
    then retry == Retry(true, if 2 * p.retry.delay < 5000 then 2 * p.retry.delay else 5000)
    else retry == p.retry
  }

  /** The confirmation is over without a reload. */
  ghost predicate GivesUp(p: Page, id: nat, q: Page) {
    && q.confirms == p.confirms.(confirming := false, waiting := p.confirms.waiting - {id})
    && q.current == p.current && q.goal == p.goal && q.checks == p.checks && q.canReload == p.canReload && q.next == p.next
  }

  lemma EndTells(p: Page, id: nat, generation: nat)
    ensures var q := EndConfirm(ConfirmOver(p, id), generation);
            GivesUp(p, id, q) && Reschedules(p, generation, q.retry)
  {
  }

  /** A confirmation's manifest has arrived. It goes on to the files exactly when the offer has not moved
      since it began and the manifest names the release on offer; else it is given up, after a manifest
      that could be read was seen, unless the offer had moved already. */
  lemma ManifestTells(s: Session, id: nat, manifest: Option<string>, env: Env)
    requires PageInv(s.page) && WellFormed(ManifestReply(id, manifest, env))
    requires id in s.page.confirms.waiting && !s.page.confirms.waiting[id].assets
    ensures var s' := Apply(s, ManifestReply(id, manifest, env));
            var p, c := s.page, s.page.confirms.waiting[id];
            var steady := p.goal.generation == c.generation;
            && s'.log == s.log
            && (steady && manifest.Some? && p.goal.target == Some(Lower(manifest.value)) ==>
                  s' == s.(page := p.(confirms := p.confirms.(waiting := p.confirms.waiting[id := c.(assets := true)]))))
            && (!steady || manifest.None? ==>
                  s'.stored == s.stored && GivesUp(p, id, s'.page) && Reschedules(p, c.generation, s'.page.retry))
            && (steady && manifest.Some? && p.goal.target != Some(Lower(manifest.value)) ==>
                  exists q :: Sees(p, s.stored, manifest.value, env, q, s'.stored) && GivesUp(q, id, s'.page) && Reschedules(q, c.generation, s'.page.retry))
  {
    var p, c := s.page, s.page.confirms.waiting[id];
    assert Aims(p.goal, c);
    EndTells(p, id, c.generation);
    if p.goal.generation == c.generation && manifest.Some? {
      TargetIsNormal(p);
      if p.goal.target != Some(Lower(manifest.value)) {
        var (q, st) := Observe(p, s.stored, manifest.value, env);
        ObserveSees(p, s.stored, manifest.value, env);
        ObserveElsewhere(p, id, s.stored, manifest.value, env);
        EndTells(q, id, c.generation);
      }
    }
    hide Observe, EndConfirm, Sees, GivesUp, Reschedules, PageInv, ValidId, Lower;
  }

  lemma TargetIsNormal(p: Page)
    requires PageInv(p) && p.goal.target.Some?
    ensures Lower(p.goal.target.value) == p.goal.target.value && p.goal.target.value != Lower(p.current)
  {
  }

  /** Observing does not look at the confirmations. */
  lemma ObserveElsewhere(p: Page, id: nat, st: Stored, name: string, env: Env)
    ensures Observe(ConfirmOver(p, id), st, name, env) == (ConfirmOver(Observe(p, st, name, env).0, id), Observe(p, st, name, env).1)
  {
    hide Lower, Clear, Retarget;
  }

  lemma ManifestExactly(stored: Stored, identity: string, env: Env, es: seq<Event>, id: nat, manifest: Option<string>, env': Env)
    requires var s := Run(Open(stored, identity, env), es);
             && id in s.page.confirms.waiting && !s.page.confirms.waiting[id].assets && WellFormed(ManifestReply(id, manifest, env'))
    ensures var s := Run(Open(stored, identity, env), es);
            var s' := Apply(s, ManifestReply(id, manifest, env'));
            && (id in s'.page.confirms.waiting <==>
                  manifest.Some? && s.page.goal.generation == s.page.confirms.waiting[id].generation && s.page.goal.target == Some(Lower(manifest.value)))
            && (id in s'.page.confirms.waiting ==> s'.page.confirms.waiting[id] == s.page.confirms.waiting[id].(assets := true))
            && s'.page.confirms.confirming == (id in s'.page.confirms.waiting) && s'.log == s.log
  {
    var s := Run(Open(stored, identity, env), es);
    RunKeepsPage(stored, identity, env, es);
    ConfirmingMeansWaiting(s.page);
    ManifestTells(s, id, manifest, env');
    hide Run, Open, PageInv, Apply, Sees, Reschedules, Lower, ValidId;
  }

  /** The confirmation reloads exactly when the files are good, the offer has not moved since it began, it
      may still be loaded, the browser is online, the release was not attempted before unless the user
      asked, and the attempt is on record: it already was, or storage takes it. */
  ghost predicate Reloads(s: Session, c: Confirmation, good: bool, env: Env) {
    && good && s.page.goal.generation == c.generation && s.page.canReload && env.online
    && s.page.goal.target.Some?
    && (s.page.goal.target.value in Read(s.stored) ==> c.manual) && (s.page.goal.target.value !in Read(s.stored) ==> env.writable)
  }

  lemma MayReloadTells(s: Session, c: Confirmation, env: Env)
    requires PageInv(s.page)
    requires c.generation == s.page.goal.generation ==> s.page.goal.available && s.page.goal.target == Some(c.expected)
    ensures MayReload(s, c, env) <==> Reloads(s, c, true, env)
    ensures MayReload(s, c, env) ==> ValidId(c.expected) && Lower(c.expected) == c.expected
  {
    hide ConfirmsOk, ChecksOk, Aims;
    if s.page.goal.target.Some? { assert Lower(s.page.goal.target.value) == s.page.goal.target.value; }
    hide Lower, ValidId, Read;
  }

  /** The files have been probed: the page is reloaded exactly then, with the attempt on record before and
      the release in the log; else the confirmation is given up. */
  lemma AssetsExactly(stored: Stored, identity: string, env: Env, es: seq<Event>, id: nat, good: bool, env': Env, x: string)
    requires var s := Run(Open(stored, identity, env), es); id in s.page.confirms.waiting && s.page.confirms.waiting[id].assets
    ensures var s := Run(Open(stored, identity, env), es);
            var p, c := s.page, s.page.confirms.waiting[id];
            var s' := Apply(s, AssetsReply(id, good, env'));
            && (if Reloads(s, c, good, env') then
                  && s'.log == s.log + [Reloaded(p.goal.target.value, c.manual)]
                  && (x in Read(s'.stored) <==> x in Read(s.stored) || x == p.goal.target.value)
                  && s'.page.retry == IDLE && s'.page.goal == p.goal
                  && s'.page.confirms == Confirms(false, true, p.confirms.waiting - {id}, p.confirms.reloads + 1)
                else s'.log == s.log && s'.stored == s.stored && GivesUp(p, id, s'.page) && Reschedules(p, c.generation, s'.page.retry))
  {
    var s := Run(Open(stored, identity, env), es);
    var c := s.page.confirms.waiting[id];
    RunKeepsPage(stored, identity, env, es);
    assert Aims(s.page.goal, c);
    EndTells(s.page, id, c.generation);
    MayReloadTells(s, c, env');
    hide Run, Open, PageInv, ValidId, Lower, GivesUp, Reschedules, Reloads;
    if good && MayReload(s, c, env') {
      RememberReads(s.stored, c.expected, env'.writable, x);
      ReloadShape(s, id, env');
    }
    hide MayReload, Remember;
  }

  lemma ReloadShape(s: Session, id: nat, env: Env)
    requires id in s.page.confirms.waiting && s.page.confirms.waiting[id].assets && MayReload(s, s.page.confirms.waiting[id], env)
    ensures var c := s.page.confirms.waiting[id];
            var s' := Apply(s, AssetsReply(id, true, env));
            && s'.log == s.log + [Reloaded(c.expected, c.manual)] && s'.stored == Remember(s.stored, c.expected, env.writable).0
            && Remember(s.stored, c.expected, env.writable).1 && s.page.goal.target == Some(c.expected)
            && s'.page.retry == IDLE && s'.page.goal == s.page.goal
            && s'.page.confirms == Confirms(false, true, s.page.confirms.waiting - {id}, s.page.confirms.reloads + 1)
  {
    hide Remember, Attempted;
  }

  // ---------- loads ----------

  /** A load starts a new page, which is on record, and forgets the attempt of exactly its own release. */
  lemma LoadExactly(s: Session, identity: string, env: Env, x: string)
    ensures var s' := Apply(s, Load(identity, env));
            var p := s'.page;
            && s'.log == s.log + [Loaded(Lower(identity))]
            && p.current == identity && !p.canReload && !p.goal.available && p.goal.target.None? && p.retry == IDLE
            && !p.checks.checking && p.checks.waiting == map[] && !p.confirms.reloadRequested && p.confirms.waiting == map[]
            && (x in Read(s'.stored) ==> x in Read(s.stored))
            && (x in Read(s.stored) && x != Lower(identity) ==> x in Read(s'.stored))
            && (ValidId(identity) && env.writable ==> Lower(identity) !in Read(s'.stored))
  {
    ClearReads(s.stored, identity, env.writable, x);
    hide Clear, Read, Lower, ValidId;
  }

  // ---------- a run ----------

  /** The release named by one digit all along. */
  function Named(c: char): (r: string)
    ensures |r| == 64 && forall i | 0 <= i < 64 :: r[i] == c
  {
    seq(64, i requires 0 <= i < 64 => c)
  }

  function A(): string { Named('a') }

  function B(): string { Named('b') }

  const GOOD := Env(true, true, true)

  function Progress(): seq<Event> {
    [SetCanReload(true, GOOD), Check(GOOD), CheckReply(0, Some(B()), GOOD)] + [ManifestReply(1, Some(B()), GOOD), AssetsReply(1, true, GOOD), Load(B(), GOOD)]
  }

  lemma Identities()
    ensures ValidId(A()) && ValidId(B()) && Lower(A()) == A() && Lower(B()) == B() && A() != B()
  {
    assert forall c | c in A() :: c == 'a';
    assert forall c | c in B() :: c == 'b';
    assert forall i | 0 <= i < 64 :: Lower(A())[i] == 'a' && Lower(B())[i] == 'b';
    assert A()[0] == 'a' && B()[0] == 'b';
  }

  function Offer(): Goal { Goal(true, Some(B()), 1) }

  lemma Offered()
    ensures var s := Apply(Apply(Apply(Open(Absent, A(), GOOD), SetCanReload(true, GOOD)), Check(GOOD)), CheckReply(0, Some(B()), GOOD));
            && s.log == [Loaded(A())] && s.stored == Absent && s.page.goal == Offer() && s.page.canReload && s.page.current == A()
            && s.page.confirms == Confirms(true, false, map[1 := Confirmation(1, B(), false, false)], 0) && s.page.retry == IDLE && s.page.next == 2
  {
    Identities();
    hide ValidId, Lower, A, B;
    var s0 := Open(Absent, A(), GOOD);
    assert s0 == Session(NewPage(A(), 0), Absent, [Loaded(A())]);
    var s1 := Apply(s0, SetCanReload(true, GOOD));
    assert s1 == Session(NewPage(A(), 0).(canReload := true), Absent, [Loaded(A())]);
    var s2 := Apply(s1, Check(GOOD));
    assert s2.page.checks == Checks(true, false, false, map[0 := false], {}, 1, 0, 0);
    assert s2.page.checks.waiting - {0} == map[];
  }

  lemma Reloaded1(s: Session)
    requires s.log == [Loaded(A())] && s.stored == Absent && s.page.goal == Offer() && s.page.canReload && s.page.current == A()
    requires s.page.confirms == Confirms(true, false, map[1 := Confirmation(1, B(), false, false)], 0) && s.page.retry == IDLE
    ensures var s' := Apply(Apply(Apply(s, ManifestReply(1, Some(B()), GOOD)), AssetsReply(1, true, GOOD)), Load(B(), GOOD));
            && s'.log == [Loaded(A()), Reloaded(B(), false), Loaded(B())] && B() !in Read(s'.stored) && s'.page.current == B()
    ensures var s' := Apply(Apply(s, ManifestReply(1, Some(B()), GOOD)), AssetsReply(1, true, GOOD));
            B() in Read(s'.stored)
  {
    Identities();
    hide ValidId, Lower, A, B;
    var s1 := Apply(s, ManifestReply(1, Some(B()), GOOD));
    assert s1.page.confirms.waiting == map[1 := Confirmation(1, B(), false, true)];
    assert Read(Absent) == [];
    assert MayReload(s1, s1.page.confirms.waiting[1], GOOD);
    ReloadShape(s1, 1, GOOD);
    RememberReads(Absent, B(), true, B());
    var s2 := Apply(s1, AssetsReply(1, true, GOOD));
    hide Apply, Remember, MayReload;
    LoadExactly(s2, B(), GOOD, B());
  }

  /** A() page of one release finds another, confirms it and reloads by itself; the load of the new release
      clears the attempt. */
  lemma ProgressRun()
    ensures var s := Run(Open(Absent, A(), GOOD), Progress());
            s.log == [Loaded(A()), Reloaded(B(), false), Loaded(B())] && B() !in Read(s.stored) && s.page.current == B()
  {
    var s0 := Open(Absent, A(), GOOD);
    Offered();
    var s1 := Apply(Apply(Apply(s0, SetCanReload(true, GOOD)), Check(GOOD)), CheckReply(0, Some(B()), GOOD));
    hide Apply, Open, Run;
    ThreeEvents(s0, SetCanReload(true, GOOD), Check(GOOD), CheckReply(0, Some(B()), GOOD));
    ThreeEvents(s1, ManifestReply(1, Some(B()), GOOD), AssetsReply(1, true, GOOD), Load(B(), GOOD));
    RunParts(s0, [SetCanReload(true, GOOD), Check(GOOD), CheckReply(0, Some(B()), GOOD)],
             [ManifestReply(1, Some(B()), GOOD), AssetsReply(1, true, GOOD), Load(B(), GOOD)]);
    Reloaded1(s1);
  }

  lemma ThreeEvents(s: Session, a: Event, b: Event, c: Event)
    ensures Run(s, [a, b, c]) == Apply(Apply(Apply(s, a), b), c)
  {
    hide Apply;
    assert [a, b, c][..2] == [a, b] && [a, b][..1] == [a] && [a][..0] == [];
    assert Run(s, [a]) == Apply(Run(s, []), a);
  }

  lemma {:induction false} RunParts(s: Session, xs: seq<Event>, ys: seq<Event>)
    ensures Run(s, xs + ys) == Run(Run(s, xs), ys)
  {
    if |ys| == 0 {
      assert xs + ys == xs;
    } else {
      assert (xs + ys)[..|xs + ys| - 1] == xs + ys[..|ys| - 1];
      RunParts(s, xs, ys[..|ys| - 1]);
    }
  }
}
