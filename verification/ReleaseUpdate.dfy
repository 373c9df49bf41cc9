/** The web release updater as an event loop. Each function is one stretch of script between two
    awaits. A session is the sequence of pages one tab loads, sharing storage. */
module ReleaseUpdate {
  import opened Options
  import opened ReleaseStorage

  const INITIAL_RETRY_MS := 250
  const MAX_RETRY_MS := 5000

  /** The update on offer. The generation counts its changes. */
  datatype Goal = Goal(available: bool, target: Option<string>, generation: nat)

  datatype Retry = Retry(timer: bool, delay: nat)

  /** `checkNow`: its flags, the replies it awaits (true marks a follow-up), the follow-ups about to be
      declared over, and how many external checks and follow-ups there have been. */
  datatype Checks = Checks(
    checking: bool, followUpRequested: bool, followUpActive: bool,
    waiting: map<nat, bool>, settling: set<nat>,
    started: nat, finished: nat, followUps: nat)

  /** A confirmation in flight: first awaiting the manifest, then (`assets`) the candidate's files. */
  datatype Confirmation = Confirmation(generation: nat, expected: string, manual: bool, assets: bool)

  /** `tryReload`: its flags, the confirmations in flight, and how often a reload was asked for. */
  datatype Confirms = Confirms(confirming: bool, reloadRequested: bool, waiting: map<nat, Confirmation>, reloads: nat)

  datatype Page = Page(
    current: string, canReload: bool, next: nat,
    goal: Goal, retry: Retry, checks: Checks, confirms: Confirms)

  datatype Entry = Loaded(id: string) | Reloaded(id: string, manual: bool)

  datatype Session = Session(page: Page, stored: Stored, log: seq<Entry>)

  /** What the browser answers during one stretch: connectivity, the storage probe, storage writes. */
  datatype Env = Env(online: bool, probe: bool, writable: bool)

  const IDLE := Retry(false, INITIAL_RETRY_MS)

  function NewPage(current: string, next: nat): Page {
    Page(current, false, next, Goal(false, None, 0), IDLE,
         Checks(false, false, false, map[], {}, 0, 0, 0), Confirms(false, false, map[], 0))
  }

  function ScheduleRetry(p: Page): Page {
    if p.retry.timer || !p.goal.available || !p.canReload || p.confirms.confirming || p.confirms.reloadRequested then p
    else p.(retry := Retry(true, if p.retry.delay * 2 < MAX_RETRY_MS then p.retry.delay * 2 else MAX_RETRY_MS))
  }

  /** The generation moves exactly when the target does. */
  function Retarget(g: Goal, target: Option<string>): Goal {
    if g.available == target.Some? && g.target == target then g else Goal(target.Some?, target, g.generation + 1)
  }

  /** `observeRelease`. */
  function Observe(p: Page, st: Stored, id: string, env: Env): (Page, Stored) {
    if Lower(id) != Lower(p.current) then (p.(goal := Retarget(p.goal, Some(Lower(id)))), st)
    else (p.(goal := Retarget(p.goal, None), retry := IDLE), Clear(st, p.current, env.writable))
  }

  /** `tryReload` up to its first await. */
  function TryReload(p: Page, st: Stored, expected: Option<string>, manual: bool, env: Env): Page {
    if !manual && p.retry.timer then p
    else
      var q := if manual then p.(retry := IDLE) else p;
      if !p.goal.available || !p.canReload || p.confirms.confirming || p.confirms.reloadRequested
         || expected.None? || |expected.value| == 0 || !env.online || !env.probe then q
      else if !manual && Attempted(st, expected.value) then q
      else
        var c := Confirmation(p.goal.generation, expected.value, manual, false);
        q.(confirms := p.confirms.(confirming := true, waiting := p.confirms.waiting[p.next := c]), next := p.next + 1)
  }

  /** The finally block of `tryReload`. */
  function EndConfirm(p: Page, generation: nat): Page {
    var q := p.(confirms := p.confirms.(confirming := false));
    if q.goal.generation != generation && q.goal.available && q.canReload then ScheduleRetry(q) else q
  }

  /** `checkNow` called while nothing is being checked. */
  function StartCheck(p: Page, followUp: bool, env: Env): Page {
    if !ValidId(p.current) || !env.online then p
    else
      p.(checks := p.checks.(checking := true, waiting := p.checks.waiting[p.next := followUp],
                             followUps := p.checks.followUps + if followUp then 1 else 0,
                             started := p.checks.started + if followUp then 0 else 1),
         next := p.next + 1)
  }

  function CheckNow(p: Page, env: Env): Page {
    if !p.checks.checking then StartCheck(p, false, env)
    else if p.checks.followUpActive then p
    else p.(checks := p.checks.(followUpRequested := true))
  }

  /** The follow-up's promise has settled; its handler is queued. */
  function QueueSettle(p: Page): Page {
    p.(checks := p.checks.(settling := p.checks.settling + {p.next}), next := p.next + 1)
  }

  /** The finally block of `checkNow`. A follow-up that could not start settles at once. */
  function EndCheck(p: Page, st: Stored, env: Env): Page {
    if p.checks.followUpRequested then
      var q := p.(checks := p.checks.(checking := false, followUpRequested := false, followUpActive := true));
      var r := StartCheck(q, true, env);
      if r.checks.checking then r else QueueSettle(r)
    else
      var q := p.(checks := p.checks.(checking := false));
      if q.goal.available && q.canReload then TryReload(q, st, q.goal.target, false, env) else q
  }

  datatype Event =
    | Load(identity: string, env: Env)
    | Check(env: Env)
    | CheckReply(id: nat, manifest: Option<string>, env: Env)
    | FollowUpSettles(id: nat)
    | SetCanReload(canReload: bool, env: Env)
    | Click(env: Env)
    | RetryFires(env: Env)
    | ManifestReply(id: nat, manifest: Option<string>, env: Env)
    | AssetsReply(id: nat, good: bool, env: Env)

  /** A manifest names a well-formed release identity, or it is rejected before it gets here. */
  predicate WellFormed(e: Event) {
    && (e.CheckReply? && e.manifest.Some? ==> ValidId(e.manifest.value))
    && (e.ManifestReply? && e.manifest.Some? ==> ValidId(e.manifest.value))
  }

  /** The awaited check is over. */
  function CheckOver(p: Page, id: nat): Page
    requires id in p.checks.waiting
  {
    p.(checks := p.checks.(waiting := p.checks.waiting - {id},
                           finished := p.checks.finished + if p.checks.waiting[id] then 0 else 1))
  }

  function Observed(p: Page, st: Stored, manifest: Option<string>, env: Env): (Page, Stored) {
    if manifest.Some? then Observe(p, st, manifest.value, env) else (p, st)
  }

  function OnCheckReply(s: Session, id: nat, manifest: Option<string>, env: Env): Session
    requires id in s.page.checks.waiting
  {
    var (q, st) := Observed(CheckOver(s.page, id), s.stored, manifest, env);
    var ended := EndCheck(q, st, env);
    s.(page := if s.page.checks.waiting[id] then QueueSettle(ended) else ended, stored := st)
  }

  /** The awaited confirmation is over. */
  function ConfirmOver(p: Page, id: nat): Page {
    p.(confirms := p.confirms.(waiting := p.confirms.waiting - {id}))
  }

  function OnManifestReply(s: Session, id: nat, manifest: Option<string>, env: Env): Session
    requires id in s.page.confirms.waiting
  {
    var c := s.page.confirms.waiting[id];
    var p := s.page;
    if p.goal.generation != c.generation || manifest.None? then s.(page := EndConfirm(ConfirmOver(p, id), c.generation))
    else if Lower(manifest.value) == Lower(p.current) || Lower(manifest.value) != Lower(c.expected) then
      var (q, st) := Observe(ConfirmOver(p, id), s.stored, manifest.value, env);
      s.(page := EndConfirm(q, c.generation), stored := st)
    else s.(page := Advance(p, id, Lower(manifest.value)))
  }

  /** A confirmation moves to its second await. */
  function Advance(p: Page, id: nat, candidate: string): Page
    requires id in p.confirms.waiting
  {
    p.(confirms := p.confirms.(waiting := p.confirms.waiting[id := p.confirms.waiting[id].(expected := candidate, assets := true)]))
  }

  predicate MayReload(s: Session, c: Confirmation, env: Env) {
    && s.page.goal.generation == c.generation && s.page.goal.available && s.page.goal.target == Some(c.expected)
    && s.page.canReload && env.online
    && (c.manual || !Attempted(s.stored, c.expected))
    && Remember(s.stored, c.expected, env.writable).1
  }

  function Reloading(p: Page, id: nat): Page {
    p.(retry := IDLE, confirms := Confirms(p.confirms.confirming, true, p.confirms.waiting - {id}, p.confirms.reloads + 1))
  }

  function OnAssetsReply(s: Session, id: nat, good: bool, env: Env): Session
    requires id in s.page.confirms.waiting
  {
    var c := s.page.confirms.waiting[id];
    if good && MayReload(s, c, env) then
      Session(EndConfirm(Reloading(s.page, id), c.generation),
              Remember(s.stored, c.expected, env.writable).0,
              s.log + [Reloaded(c.expected, c.manual)])
    else s.(page := EndConfirm(ConfirmOver(s.page, id), c.generation))
  }

  /** One stretch of script, or one page load. Events that are not enabled change nothing. */
  function Apply(s: Session, e: Event): Session {
    if !WellFormed(e) then s else
    match e
    case Load(identity, env) =>
      Session(NewPage(identity, s.page.next),
              if ValidId(identity) then Clear(s.stored, identity, env.writable) else s.stored,
              s.log + [Loaded(Lower(identity))])
    case Check(env) => s.(page := CheckNow(s.page, env))
    case CheckReply(id, manifest, env) => if id in s.page.checks.waiting then OnCheckReply(s, id, manifest, env) else s
    case FollowUpSettles(id) =>
      if id in s.page.checks.settling
      then s.(page := s.page.(checks := s.page.checks.(settling := s.page.checks.settling - {id}, followUpActive := false)))
      else s
    case SetCanReload(canReload, env) =>
      var p := s.page.(canReload := canReload);
      s.(page := if canReload && p.goal.available then TryReload(p, s.stored, p.goal.target, false, env) else p)
    case Click(env) => s.(page := TryReload(s.page, s.stored, s.page.goal.target, true, env))
    case RetryFires(env) =>
      if !s.page.retry.timer then s
      else
        var p := s.page.(retry := s.page.retry.(timer := false));
        s.(page := if p.goal.available && p.canReload && !p.confirms.confirming && !p.confirms.reloadRequested
                   then TryReload(p, s.stored, p.goal.target, false, env) else p)
    case ManifestReply(id, manifest, env) =>
      if id in s.page.confirms.waiting && !s.page.confirms.waiting[id].assets then OnManifestReply(s, id, manifest, env) else s
    case AssetsReply(id, good, env) =>
      if id in s.page.confirms.waiting && s.page.confirms.waiting[id].assets then OnAssetsReply(s, id, good, env) else s
  }

  /** A tab opens with whatever its session storage holds. */
  function Open(stored: Stored, identity: string, env: Env): Session {
    Apply(Session(NewPage(identity, 0), stored, []), Load(identity, env))
  }

  function Run(s: Session, es: seq<Event>): Session {
    if |es| == 0 then s else Apply(Run(s, es[..|es| - 1]), es[|es| - 1])
  }
}
