/** The updater's script as the mutable object it is: one method per function of the script, split at
    its awaits. Each handler is equated with one event of the session state machine. */
module ReleaseUpdater {
  import opened Options
  import opened ReleaseStorage
  import opened ReleaseUpdate

  class Updater {
    var current: string
    var canReload: bool
    var next: nat
    var goal: Goal
    var retry: Retry
    var checks: Checks
    var confirms: Confirms
    var stored: Stored
    var log: seq<Entry>

    ghost function PageView(): Page
      reads this
    {
      Page(current, canReload, next, goal, retry, checks, confirms)
    }

    ghost function View(): Session
      reads this
    {
      Session(PageView(), stored, log)
    }

    /** Opening a tab. */
    constructor (held: Stored, identity: string, env: Env)
      ensures View() == Open(held, identity, env)
    {
      current, canReload, next := identity, false, 0;
      goal, retry := Goal(false, None, 0), Retry(false, INITIAL_RETRY_MS);
      checks, confirms := Checks(false, false, false, map[], {}, 0, 0, 0), Confirms(false, false, map[], 0);
      stored := if ValidId(identity) then Clear(held, identity, env.writable) else held;
      log := [Loaded(Lower(identity))];
    }

    method CancelReloadRetry()
      modifies this`retry
      ensures retry == IDLE
    {
      retry := Retry(false, INITIAL_RETRY_MS);
    }

    method ScheduleReloadRetry()
      modifies this`retry
      ensures PageView() == ScheduleRetry(old(PageView()))
    {
      if retry.timer || !goal.available || !canReload || confirms.confirming || confirms.reloadRequested { return; }
      var delay := retry.delay * 2;
      if delay > MAX_RETRY_MS { delay := MAX_RETRY_MS; }
      retry := Retry(true, delay);
    }

    method ObserveRelease(id: string, env: Env)
      modifies this`goal, this`retry, this`stored
      ensures (PageView(), stored) == Observe(old(PageView()), old(stored), id, env)
    {
      var available := Lower(id) != Lower(current);
      var target := if available then Some(Lower(id)) else None;
      if goal.available != available || goal.target != target {
        goal := goal.(generation := goal.generation + 1);
      }
      goal := goal.(available := available, target := target);
      if !available {
        stored := Clear(stored, current, env.writable);
        CancelReloadRetry();
      }
    }

    /** `tryReload` up to its first await; every caller passes the current target. */
    method TryReloadNow(manual: bool, env: Env)
      modifies this`retry, this`confirms, this`next
      ensures PageView() == TryReload(old(PageView()), stored, goal.target, manual, env)
    {
      if manual { CancelReloadRetry(); } else if retry.timer { return; }
      if !goal.available || !canReload || confirms.confirming || confirms.reloadRequested { return; }
      if goal.target.None? || |goal.target.value| == 0 || !env.online || !env.probe { return; }
      if !manual && Attempted(stored, goal.target.value) { return; }
      confirms := confirms.(confirming := true,
        waiting := confirms.waiting[next := Confirmation(goal.generation, goal.target.value, manual, false)]);
      next := next + 1;
    }

    method FinishConfirmation(generation: nat)
      modifies this`retry, this`confirms
      ensures PageView() == EndConfirm(old(PageView()), generation)
    {
      confirms := confirms.(confirming := false);
      if goal.generation != generation && goal.available && canReload { ScheduleReloadRetry(); }
    }

    /** The manifest a confirmation waited for has arrived. */
    method OnManifest(id: nat, manifest: Option<string>, env: Env)
      requires id in confirms.waiting && !confirms.waiting[id].assets && (manifest.Some? ==> ValidId(manifest.value))
      modifies this
      ensures View() == Apply(old(View()), ManifestReply(id, manifest, env))
    {
      hide EndConfirm, Observe, ValidId, Lower;
      var c := confirms.waiting[id];
      if goal.generation == c.generation && manifest.Some? {
        var candidate := Lower(manifest.value);
        if candidate != Lower(current) && candidate == Lower(c.expected) {
          confirms := confirms.(waiting := confirms.waiting[id := c.(expected := candidate, assets := true)]);
          return;
        }
        confirms := confirms.(waiting := confirms.waiting - {id});
        ObserveRelease(manifest.value, env);
      } else {
        confirms := confirms.(waiting := confirms.waiting - {id});
      }
      FinishConfirmation(c.generation);
    }

    /** The candidate's files have been probed; reload if nothing moved and the attempt can be recorded. */
    method OnAssets(id: nat, good: bool, env: Env)
      requires id in confirms.waiting && confirms.waiting[id].assets
      modifies this
      ensures View() == Apply(old(View()), AssetsReply(id, good, env))
    {
      hide EndConfirm, Attempted, Remember;
      var c := confirms.waiting[id];
      confirms := confirms.(waiting := confirms.waiting - {id});
      if good && goal.generation == c.generation && goal.available && goal.target == Some(c.expected) && canReload && env.online
         && (c.manual || !Attempted(stored, c.expected)) {
        var (written, recorded) := Remember(stored, c.expected, env.writable);
        if recorded {
          stored := written;
          CancelReloadRetry();
          confirms := confirms.(reloadRequested := true, reloads := confirms.reloads + 1);
          log := log + [Reloaded(c.expected, c.manual)];
        }
      }
      FinishConfirmation(c.generation);
    }

    method BeginCheck(followUp: bool, env: Env)
      modifies this`checks, this`next
      ensures PageView() == StartCheck(old(PageView()), followUp, env)
    {
      if !ValidId(current) || !env.online { return; }
      checks := checks.(checking := true, waiting := checks.waiting[next := followUp]);
      if followUp { checks := checks.(followUps := checks.followUps + 1); } else { checks := checks.(started := checks.started + 1); }
      next := next + 1;
    }

    /** `checkNow` called from outside. */
    method CheckNowExternally(env: Env)
      modifies this`checks, this`next
      ensures View() == Apply(old(View()), Check(env))
    {
      if checks.checking {
        if !checks.followUpActive { checks := checks.(followUpRequested := true); }
        return;
      }
      BeginCheck(false, env);
    }

    method QueueSettling()
      modifies this`checks, this`next
      ensures PageView() == QueueSettle(old(PageView()))
    {
      checks := checks.(settling := checks.settling + {next});
      next := next + 1;
    }

    /** The finally block of `checkNow`. */
    method FinishCheck(env: Env)
      modifies this`checks, this`next, this`retry, this`confirms
      ensures PageView() == EndCheck(old(PageView()), stored, env)
    {
      hide StartCheck, TryReload, QueueSettle;
      checks := checks.(checking := false);
      if checks.followUpRequested {
        checks := checks.(followUpRequested := false, followUpActive := true);
        BeginCheck(true, env);
        if !checks.checking { QueueSettling(); }
      } else if goal.available && canReload {
        TryReloadNow(false, env);
      }
    }

    /** The manifest a check waited for has arrived: observe it, then run the finally block. */
    method OnCheck(id: nat, manifest: Option<string>, env: Env)
      requires id in checks.waiting && (manifest.Some? ==> ValidId(manifest.value))
      modifies this
      ensures View() == Apply(old(View()), CheckReply(id, manifest, env))
    {
      hide EndCheck, Observe, QueueSettle, ValidId;
      var followUp := checks.waiting[id];
      checks := checks.(waiting := checks.waiting - {id});
      if !followUp { checks := checks.(finished := checks.finished + 1); }
      assert PageView() == CheckOver(old(PageView()), id);
      if manifest.Some? { ObserveRelease(manifest.value, env); }
      FinishCheck(env);
      if followUp { QueueSettling(); }
    }

    method SetCanReloadFlag(allowed: bool, env: Env)
      modifies this
      ensures View() == Apply(old(View()), SetCanReload(allowed, env))
    {
      canReload := allowed;
      if canReload && goal.available { TryReloadNow(false, env); }
    }

    method OnClick(env: Env)
      modifies this`retry, this`confirms, this`next
      ensures View() == Apply(old(View()), Click(env))
    {
      TryReloadNow(true, env);
    }

    method OnFollowUpSettled(id: nat)
      requires id in checks.settling
      modifies this`checks
      ensures View() == Apply(old(View()), FollowUpSettles(id))
    {
      checks := checks.(settling := checks.settling - {id}, followUpActive := false);
    }

    method OnRetryTimer(env: Env)
      requires retry.timer
      modifies this
      ensures View() == Apply(old(View()), RetryFires(env))
    {
      retry := retry.(timer := false);
      if goal.available && canReload && !confirms.confirming && !confirms.reloadRequested { TryReloadNow(false, env); }
    }
  }
}
