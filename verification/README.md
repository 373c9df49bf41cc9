# Lythaus protocols

Lythaus runs a private image-authenticity beta, a transactional mail outbox, a moderation desk and an
admin console on Workers over one database, and a web client that updates itself. This project models
their concurrent protocols and the algorithmic cores beside them, and proves what holds over every run
or every input. `dafny verify dfyconfig.toml` checks it all.

How the model is built:

- **Protocols.** Each database transaction, or each stretch of script between two awaits, is one atomic
  step of a state machine (`Apply`, folded by `Run`); steps of any number of actors interleave freely on
  one monotone clock, with crashes and redelivery. The state also carries history (claims, provider
  calls, log entries) that the theorems speak about. Beside each state machine stands a class whose
  methods perform the same transactions in place, with the same branches, and are proved against them.
  The `*Answers` modules say, of rows and fields alone, exactly when each operation is granted and what it
  leaves, with runs that get there.
- **Authenticity beta** (`Beta*`): lease and journal of paid provider steps; workers, sweep,
  administrator and owner. `BetaWorker` is the handler's program, proved to be a run.
- **Mail outbox** (`Email*`): claim, locked delivery, retry, stale sweep, supersession, provider events.
- **Web updater** (`Release*`): checks, confirmations, retry timer, attempt storage across page loads.
- **Moderation** (`Moderation*`): decisions, re-reviews, edits, erasure and retention over two tables.
- **Paging** (`KeysetPaging`, `HistoryListing`, `HistoryCursor`, `HistoryPages`, `UserListing`, `Base64Url`).
- **Brand paths** (`SvgPath`, `SvgTree`): SVG to canvas calls. Coordinates are reals.
- **Data roles** (`RoundRobin`, `DataRoles`), **overview windows** (`Calendar`, `OverviewScope`) and
  **supervisor** (`ControlStream`, `Supervisor`).

Findings, each stated with its exact condition:

- The beta's catch handler guards its write by token and revision but not by the lease, and writes the
  status of a result it may have failed to store. A worker that compiled a result but could not save it,
  because its lease ran out (`LateRun`) or because the save threw under a live lease (`LiveRun`), leaves a
  case that says complete, holds no result and cannot be retried (`ResultlessExactly`).
- Privacy erasure and retention block posts (erasure also comments) with no decision, and erasure
  supersedes open cases of content that is not deleted, so the moderation tables then disagree
  (`ErasedInReview`, `RetainedInReview`, `ErasedProfile`); they agree exactly while nothing different was written over
  (`CaseContentAgreement`, `NoVerdictWithoutDecision`).
- A deleted post keeps the state "allowed" while its publication time is cleared, so "published exactly
  when allowed" fails for deleted posts and only for them (`PublishedMatchesReview`).
- The path translator does not move its pen back on a close, so an H or V after a close is drawn from the
  wrong coordinate unless the pen stood there anyway, and it accepts path data that does not begin with a
  move, which SVG does not draw (`TranslationPreservesGeometry`, `NoLeadingMoveMisdraws`).
- The tree walk draws paths inside an inner svg without its viewport, paths inside paths, and paths of any
  namespace (`InnerSvgMisdraws`, `PathInPathMisdraws`, `ForeignPathMisdraws`); without these it draws SVG's
  picture exactly (`OpsShowPicture`).
- Two different terminal mail events do not converge: the first one wins (`ConvergenceIsExact`).
- `Date.UTC` reads years 0 to 99 as 1900 to 1999, so the overview windows are wrong for dates in those
  years, and for the year to date of 100 (`WindowsRight`, `MisreadHappens`, `YearFiftyWrong`). No date from
  1970 on is affected, and the two callers (apps/lythaus-admin-api/src/overview-runtime.ts, lines 122 and
  131) pass only current times.
- A control stream of more than 4096 bytes can be refused or not depending on how reads split it, unless
  its lines are refused anyway (`IndependentExactly`); two hundred requests in one burst are such a stream
  (`LongSessionDepends`).
- The data roles keep sealed families out of the camera and digital pools only. Transfer records are
  excluded by sample, not by family, so the roles avoid the sealed families exactly when the first 128
  transfer records do (`AssignRoles`, `SealedAvoidedExactly`); any of those families can be sealed and is
  given out all the same (`AssignSealedFamily`).

Assumptions, each a parameter or an event of the model: evidence and result currency checks, label and
publication rules and mail deliverability are arbitrary verdicts; provider outputs, failures and times are
arbitrary; lease tokens and row identifiers are fresh; decisions are ordered by commit; the texts in which
the database writes times and identifiers read back as what was written.

## Model

| member | source | states |
|---|---|---|
| BetaTheorems.AtMostOnce | apps/lythaus-jobs/src/authenticity-beta.ts:32-65 | In every run, each (case, step) has at most one journal row and at most one provider execution, under redelivery, lease expiry, re-claims, crashes, sweeps, admin retry and advice. |
| BetaTheorems.JournalIsFinal | apps/lythaus-jobs/src/authenticity-beta.ts:36-64 | Whatever happens later, a row stays the only one of its case and step; a settled row keeps its state, and a completed output never changes until the owner deletes the case. |
| BetaTheorems.FencedCompletionHitsItsRow | apps/lythaus-jobs/src/authenticity-beta.ts:54-57 | Whenever a completion passes the fence, the unchecked update hits exactly its own, still started, row and nothing else. |
| BetaTheorems.LostLeaseWritesNothing | apps/lythaus-jobs/src/authenticity-beta.ts:67-184 | Once a worker's token has been replaced or cleared, no later step of that worker, the catch handler included, changes any case row, however the run continues. |
| BetaTheorems.GateChain | apps/lythaus-jobs/src/authenticity-beta.ts:98-154 | In every reachable state an advice row implies completed safe and ALLOW-ed safety rows, a safe row implies the ALLOW-ed safety row, and a stored result implies both. |
| BetaPreservation.CountOfTwoIsSound | apps/lythaus-jobs/src/authenticity-beta.ts:100-101 | The advice path's "two rows" test implies both gates, given per-step uniqueness. |
| BetaTheorems.RuntimeIsExclusive | apps/lythaus-jobs/src/authenticity-beta.ts:84-90 | At most one lease is live anywhere, a queued case holds none, no claim goes through while a lease is live, and a case is claimed at most three times, admin retries included. |
| BetaTheorems.BoundedSpend | apps/lythaus-jobs/src/authenticity-beta.ts:32-65 | A case costs at most three provider executions in its life. |
| BetaPreservation.StepKeeps | apps/lythaus-jobs/src/authenticity-beta.ts:74-185 | The invariant linking case rows, journal, workers and history is kept by every event of the system. |
| BetaTheorems.RunKeepsInvariant | apps/lythaus-jobs/src/authenticity-beta.ts:74-198 | That invariant holds in every reachable state. |
| BetaTheorems.WorkerWrites | apps/lythaus-jobs/src/authenticity-beta.ts:113-153 | Every transaction of a worker either leaves the case table alone or updates only the row that still carries its token. |
| BetaTheorems.TablesEvolve | apps/lythaus-jobs/src/authenticity-beta.ts:194-198 | Every event (sweeps, admin, owner and workers) keeps the journal append-only with settled rows frozen, keeps `expires_at`, and never lowers attempts or revision. |
| BetaPreservation.FenceMeansStarted | apps/lythaus-jobs/src/authenticity-beta.ts:16-16 | Passing the fence implies that the worker's own journal row is still started. |
| BetaSettlement.ResultlessExactly | apps/lythaus-jobs/src/authenticity-beta.ts:181-184 | In every run a case comes to say complete, inconclusive or unsupported without a stored result exactly by the catch handler of a worker that still owns the token and holds a result that was never stored. With the stale code its lease or the case has expired; with any other code the lease may be live. |
| BetaSettlement.ResultlessForGood | apps/lythaus-admin-api/src/authenticity-beta.ts:59-69 | Such a case is never retried, advised, claimed or swept again: it stays as it is until its owner cancels or deletes it. |
| BetaSettlement.LateRun | apps/lythaus-jobs/src/authenticity-beta.ts:151-184 | A run that gets there: the lease runs out between the finished safe step and the saving of its result. |
| BetaSettlement.LiveRun | apps/lythaus-jobs/src/authenticity-beta.ts:152-183 | Another one: saving the compiled result throws for a reason of its own while the fence still holds. |
| BetaWorker.Program.Process | apps/lythaus-jobs/src/authenticity-beta.ts:74-185 | Left alone, an analysis of a new case ends as the table `Ending` says (failed without a provider's answer, settled by the safety verdict, paused when switched off, else with the result and its advisory), with one journal row per step begun. In any company the handler as a program over the shared store, with arbitrary transactions of others at each of its awaits, is a run of the protocol, ends finished, and leaves a live lease of its own behind only when the catch handler's own update was lost. |
| BetaWorker.Program.PaidStep | apps/lythaus-jobs/src/authenticity-beta.ts:32-65 | A paid step as written, with reuse, lost acknowledgements and the catch block, is a stretch of such a run and ends with its output in hand, in the catch handler, or (advice) with the advisory decided. |
| BetaWorker.ReuseStable | apps/lythaus-jobs/src/authenticity-beta.ts:46-50 | An output that a step was allowed to reuse can still be reused after any transactions of others, as long as the fence holds. |
| BetaWorker.FailureFrees | apps/lythaus-jobs/src/authenticity-beta.ts:181-184 | The catch handler leaves the case without its worker's token. |
| BetaAnswers.BeginExactly | apps/lythaus-jobs/src/authenticity-beta.ts:32-50 | In every reachable state, beginning a step puts the output of the case's own row in the worker's hand, with journal and provider calls unchanged, if and only if that row is completed, still holds its output and carries the presented key; it inserts a row if and only if the case has none of that name; otherwise it refuses. |
| BetaAnswers.RedeliveredRun | apps/lythaus-jobs/src/authenticity-beta.ts:36-50 | A worker dies after the safety step; the redelivered event reuses its output under the same key without another call, and is refused under any other. |
| BetaAnswers.CompleteRun | apps/lythaus-jobs/src/authenticity-beta.ts:74-179 | One undisturbed run to a complete case with its advisory, three completed rows and one call each. |
| BetaAnswers.FenceExactly | apps/lythaus-jobs/src/authenticity-beta.ts:16-16 | In every reachable state the fence's six tests come down to three: the token, the lease and the case's own time. |
| BetaAnswers.ClaimExactly | apps/lythaus-jobs/src/authenticity-beta.ts:84-90 | A claim is granted exactly when no lease is live and the case is queued or analyzing under this revision with time and attempts left; it takes five minutes and one attempt and touches nothing else. |
| BetaAnswers.FinishExactly | apps/lythaus-jobs/src/authenticity-beta.ts:52-60 | A called step completes exactly under token and time; its output is in hand when the commit was acknowledged too. |
| BetaAnswers.GiveUpExactly | apps/lythaus-jobs/src/authenticity-beta.ts:61-64 | A row given up becomes ambiguous if it was still started, and the step gave nothing. |
| BetaAnswers.SaveExactly | apps/lythaus-jobs/src/authenticity-beta.ts:67-72 | Under token and time the result is stored, by the final save with the state it stands for and the lease given back; else nothing is written. |
| BetaAnswers.SafetyExactly | apps/lythaus-jobs/src/authenticity-beta.ts:112-116 | The safety verdict is stored, and one that did not pass settles the case as blocked or for review. |
| BetaAnswers.DisabledExactly | apps/lythaus-jobs/src/authenticity-beta.ts:117-121 | A missing approval pauses the case under its own code. |
| BetaAnswers.CatchExactly | apps/lythaus-jobs/src/authenticity-beta.ts:181-184 | The catch handler writes exactly when the case still carries the worker's token: paused for two codes, else the state of the result in hand, else failed. |
| BetaAnswers.CheckAdviceExactly | apps/lythaus-jobs/src/authenticity-beta.ts:98-101 | The advice path opens exactly for an eligible result whose case has both gates journalled. |
| BetaAnswers.SweepExactly | apps/lythaus-jobs/src/authenticity-beta.ts:194-195 | The sweep turns exactly the started rows ambiguous that nobody is left to finish. |
| BetaAnswers.ExpiryExactly | apps/lythaus-jobs/src/authenticity-beta.ts:196-198 | Overdue cases expire and spent ones fail; no other case moves. |
| BetaAnswers.RetryExactly | apps/lythaus-admin-api/src/authenticity-beta.ts:66-70 | The retry goes through exactly for a failed or paused case with time and attempts left, all of whose rows are completed, and current evidence. |
| BetaAnswers.AdviceExactly | apps/lythaus-admin-api/src/authenticity-beta.ts:59-65 | Advice goes through exactly for a complete case with an eligible result and no advice row yet. |
| BetaAnswers.ExecuteExactly | apps/lythaus-jobs/src/authenticity-beta.ts:51-53 | The provider is called once per begun step, and nothing else changes. |
| BetaAnswers.SkipExactly | apps/lythaus-jobs/src/authenticity-beta.ts:156-160 | The advisory is left as it is when there is nothing to advise and noted when it is switched off or fails before its row. |
| BetaAnswers.UploadExactly | apps/lythaus-public-api/src/authenticity-beta.ts:70-107 | A new case has a quarter of an hour, and an upload is queued only in time. |
| BetaAnswers.ClosureExactly | apps/lythaus-public-api/src/authenticity-beta.ts:134-141 | Cancelling and deleting close the case under a new revision, and deleting also erases its result, safety and journalled outputs. |
| BetaDatabase.Database.ClaimCase | apps/lythaus-jobs/src/authenticity-beta.ts:84-90 | The claiming transaction on the mutable tables computes the transaction the theorems are about. |
| BetaDatabase.Database.BeginStep | apps/lythaus-jobs/src/authenticity-beta.ts:32-45 | The opening transaction of a step: stale, reused, consumed or newly inserted, with the exact new tables. |
| BetaDatabase.Database.CompleteStep | apps/lythaus-jobs/src/authenticity-beta.ts:54-57 | The fenced completion, with the exact new tables. |
| BetaDatabase.Database.AbandonStep | apps/lythaus-jobs/src/authenticity-beta.ts:61-62 | A failed step marks its started row ambiguous and no other. |
| BetaDatabase.Database.SaveResult | apps/lythaus-jobs/src/authenticity-beta.ts:67-72 | The fenced result write, releasing the lease when it is terminal. |
| BetaDatabase.Database.SettleFailure | apps/lythaus-jobs/src/authenticity-beta.ts:181-184 | The catch handler's write, guarded by token and revision only. |
| BetaDatabase.Database.ExpireBetaWork | apps/lythaus-jobs/src/authenticity-beta.ts:194-198 | The sweep's three statements in order, as in-place loops over the tables. |
| BetaDatabase.Database.AdminRetry | apps/lythaus-admin-api/src/authenticity-beta.ts:66-70 | The admin retry transaction with every refusal. |
| BetaDatabase.Database.AdminAdvice | apps/lythaus-admin-api/src/authenticity-beta.ts:59-65 | The admin advice transaction with every refusal. |
| EmailProtocol.SendsAreBounded | apps/lythaus-jobs/src/transactional-email-runtime.ts:153-275 | In every run each claim leads to at most one provider call, and calls for a mail never exceed its attempt count, which never exceeds eight. |
| EmailProtocol.SendsAreClaimed | apps/lythaus-jobs/src/transactional-email-runtime.ts:227-252 | A provider call happens only on a processing row whose current claim is the caller's own and has not sent before. |
| EmailProtocol.RowsAreSound | apps/lythaus-jobs/src/transactional-email-runtime.ts:153-204 | In every reachable state the envelope is stored only while the mail is queued or processing, and a row with a provider id is neither; a queued row has no claim outstanding. |
| EmailProtocol.IdOnlyByAcceptance | apps/lythaus-jobs/src/transactional-email-runtime.ts:243-250 | A provider id appears only by an accepted delivery under the row's own current claim. |
| EmailProtocol.NeverSentAgain | apps/lythaus-jobs/src/transactional-email-runtime.ts:206-252 | A mail that has left the queue (accepted, failed, cancelled) is never sent again whatever follows, and its provider id never changes. |
| EmailAnswers.FailureExactly | apps/lythaus-jobs/src/transactional-email-runtime.ts:187-204 | In every reachable state a failed delivery queues the mail again if and only if the failure is transient and the attempt below eight, with its envelope, after a wait of d to 1.2 d, where d is half a minute doubled once per earlier attempt and at most six hours; otherwise it fails for good and the envelope is gone. |
| EmailAnswers.RefusedRun | apps/lythaus-jobs/src/transactional-email-runtime.ts:187-252 | A first attempt refused: queued for half a minute later when transient, ended otherwise. |
| EmailAnswers.AcceptedExactly | apps/lythaus-jobs/src/transactional-email-runtime.ts:243-250 | An accepted delivery stores the provider's id and drops the envelope. |
| EmailAnswers.UnwantedExactly | apps/lythaus-jobs/src/transactional-email-runtime.ts:206-225 | Nothing is sent for a mail that is not processing or no longer wanted; an unsettled one is cancelled. |
| EmailAnswers.TakeExactly | apps/lythaus-jobs/src/transactional-email-runtime.ts:153-185 | Stale mails fail, the picked mail is taken exactly when it waits and is due, and no other moves. |
| EmailAnswers.CrashExactly | apps/lythaus-jobs/src/transactional-email-runtime.ts:227-252 | A delivery that dies leaves the row as it was, whether or not the provider was called. |
| EmailAnswers.IdentityExactly | apps/lythaus-public-api/src/index.ts:396-401 | A newer challenge cancels an unsettled or failed mail; a new mail is due at once. |
| EmailAnswers.LifecycleExactly | apps/lythaus-jobs/src/transactional-email-runtime.ts:389-418 | An event moves exactly the mails of its message, and each state to the one named. |
| EmailProtocol.StepKeeps | apps/lythaus-jobs/src/transactional-email-runtime.ts:153-275 | The outbox invariant is kept by claim, delivery, lost claims, stale sweep, supersession and lifecycle events. |
| EmailOutboxStore.Store.ClaimTransaction | apps/lythaus-jobs/src/transactional-email-runtime.ts:153-185 | The claiming transaction in place: stale rows fail first, then the picked due row is taken. |
| EmailOutboxStore.Store.MarkEmailFailure | apps/lythaus-jobs/src/transactional-email-runtime.ts:187-204 | Retry with backoff or final failure, only on a processing row. |
| EmailOutboxStore.Store.DeliverTransaction | apps/lythaus-jobs/src/transactional-email-runtime.ts:227-252 | Lock, recheck, render, send, record: the new row and whether the provider was called. |
| EmailOutboxStore.Store.Relay | apps/lythaus-jobs/src/transactional-email-runtime.ts:254-260 | The relay loop claims and delivers until nothing is due or 25 turns are over: exactly this run of the protocol, with at most 25 provider calls and no claim of its own left behind. |
| EmailLifecycle.FinalState | apps/lythaus-jobs/src/transactional-email-runtime.ts:389-418 | For every event sequence on an accepted mail: the first terminal kind wins, else delivered, else deferred, else accepted. |
| EmailLifecycle.Convergence | apps/lythaus-jobs/src/transactional-email-runtime.ts:389-418 | With at most one terminal kind, order and duplicates do not matter. |
| EmailLifecycle.ConvergenceIsExact | apps/lythaus-jobs/src/transactional-email-runtime.ts:398-410 | That condition is exact: with two distinct terminal kinds the outcome depends on the order. |
| EmailLifecycle.TerminalAbsorbs | apps/lythaus-jobs/src/transactional-email-runtime.ts:408-408 | A terminal or cancelled state absorbs every further event. |
| EmailLifecycle.AnsweredWhenKnown | apps/lythaus-jobs/src/transactional-email-runtime.ts:411-417 | The call answers true exactly when the event is well formed and some row carries its message id; exactly those rows move. |
| ReleaseTheorems.NoReloadLoop | web/release-update.js:38-110 | Over all page loads of a tab, between two automatic reloads for one release lies a page load whose own identity is that release, whatever storage held at first. |
| ReleaseTheorems.SingleFlight | web/release-update.js:356-446 | In every interleaving at most one confirmation and one check are in flight, a page asks for at most one reload, and follow-up checks never outnumber externally finished ones. |
| ReleaseTheorems.OneFollowUpEach | web/release-update.js:414-446 | A follow-up starts only with the reply to an externally started check, one at a time, and no two follow-ups of a tab's whole life come from the same check. |
| ReleaseTheorems.FollowUpIsLast | web/release-update.js:431-441 | A follow-up check never starts another check. |
| ReleaseTheorems.ReloadTargetNeverChanged | web/release-update.js:369-402 | When a confirmation is about to reload, the target was the same at every moment since it started, so no change-and-back can slip through. |
| ReleaseAnswers.StartsExactly | web/release-update.js:356-373 | In every reachable state an event starts a confirmation if and only if it is a click, a permission, a retry or a check's reply that finds an update on offer and allowed, none in flight or requested, the browser online and storage writable, and (unless clicked) no retry waiting and the release not attempted before. |
| ReleaseAnswers.CheckStarts | web/release-update.js:424-446 | The same for a check's reply, on the page as the reply leaves it. |
| ReleaseAnswers.CheckExactly | web/release-update.js:414-422 | An external check starts exactly when none runs, the page knows its release and the browser is online; else it asks for a follow-up unless one is under way. |
| ReleaseAnswers.ReplyExactly | web/release-update.js:431-446 | After a reply, a follow-up that was asked for starts or settles at once, and no other check is left. |
| ReleaseAnswers.SettleExactly | web/release-update.js:434-438 | A queued follow-up settles once, and only then may another be asked for. |
| ReleaseAnswers.LoadExactly | web/release-update.js:152-154 | A load starts a fresh page and forgets the attempt of exactly its own release. |
| ReleaseAnswers.ManifestExactly | web/release-update.js:374-388 | A confirmation goes on to the files exactly when the offer has not moved and the manifest names it. |
| ReleaseAnswers.AssetsExactly | web/release-update.js:388-411 | The page reloads exactly when the files are good, the offer has not moved, it may be loaded, the browser is online and the attempt is new (unless clicked) and on record; else the confirmation ends, with a retry if the offer moved. |
| ReleaseAnswers.ProgressRun | web/release-update.js:356-411 | A page finds another release, confirms it and reloads by itself, and the load of the new one clears the attempt. |
| ReleaseInvariant.StepKeeps | web/release-update.js:136-150 | The page invariant tying generation, target, flags and pending tasks is kept by every event. |
| ReleaseStorage.RememberReads | web/release-update.js:77-91 | Remembering adds exactly one identity to what is read back. |
| ReleaseStorage.ClearReads | web/release-update.js:93-110 | Clearing removes at most the named identity and, when storage is writable, does remove it. |
| ReleaseStorage.ReadIsNormal | web/release-update.js:38-53 | Whatever text storage holds, what is read are lower-case identities. |
| ReleaseUpdater.Updater.ObserveRelease | web/release-update.js:136-150 | Observing a release moves target and generation as the event model does. |
| ReleaseUpdater.Updater.TryReloadNow | web/release-update.js:356-373 | The synchronous part of a reload attempt. |
| ReleaseUpdater.Updater.OnManifest | web/release-update.js:373-388 | A confirmation's manifest arrived. |
| ReleaseUpdater.Updater.OnAssets | web/release-update.js:388-411 | A confirmation's files were probed: reload only if nothing moved and the attempt is recorded. |
| ReleaseUpdater.Updater.CheckNowExternally | web/release-update.js:414-422 | A check requested from outside, coalesced while one runs. |
| ReleaseUpdater.Updater.OnCheck | web/release-update.js:424-446 | A check's manifest arrived, with its finally block. |
| ReleaseUpdater.Updater.OnRetryTimer | web/release-update.js:127-133 | The retry timer fired. |
| ModerationTheorems.CaseContentAgreement | apps/lythaus-admin-api/src/index.ts:548-624 | On the content's current revision: an open case goes with content under review, a resolved one with its latest decision, which is allow or block, and a superseded one only with deleted content. In every run this holds if and only if no privacy erasure or retention run has written over a different review state of a post or comment, and no erasure ran while a profile's case was open; it does while the author's own words stand. |
| ModerationTheorems.ProfileCaseClosedByErasure | apps/lythaus-jobs/src/index.ts:2175-2190 | On the current revision a profile's case is superseded exactly when an erasure ran while it was open. |
| ModerationTheorems.ErasedProfile | apps/lythaus-jobs/src/index.ts:2175-2190 | A run in which erasure supersedes the open case of an active user's profile, which stays under review. |
| ModerationTheorems.NoVerdictWithoutDecision | apps/lythaus-admin-api/src/index.ts:573-624 | Allowed or blocked content has a resolved case and decision on exactly its current revision if and only if the block was not written by an erasure or retention run over another state. |
| ModerationTheorems.NeverRedacted | apps/lythaus-jobs/src/index.ts:2757-2761 | Content that no erasure and no retention run touched has nothing written over, so both statements above hold of it outright. |
| ModerationTheorems.ErasedInReview | apps/lythaus-jobs/src/index.ts:2173-2190 | A run in which erasure blocks an undeleted post with no decision and supersedes its case. |
| ModerationTheorems.RetainedInReview | apps/lythaus-jobs/src/index.ts:2757-2761 | A run in which retention blocks a post with no decision and leaves its case open. |
| ModerationTheorems.PublishedIffAllowed | apps/lythaus-admin-api/src/index.ts:587-596 | A post has a publication time exactly when it is allowed and not deleted. |
| ModerationTheorems.PublishedMatchesReview | apps/lythaus-admin-api/src/index.ts:587-596 | "Published exactly when allowed" holds if and only if the post is not an allowed post that was deleted. |
| ModerationTheorems.AllowedPostDeleted | apps/lythaus-admin-api/src/index.ts:587-596 | A run in which it fails. |
| ModerationTheorems.OneOpenCase | apps/lythaus-admin-api/src/moderation-rereview-runtime.ts:138-151 | At most one case of a content is open and no two share a revision, so a granted reopening never meets another open case. |
| ModerationTheorems.TokenReopensOnce | apps/lythaus-admin-api/src/moderation-rereview-runtime.ts:100-106 | A revision token reopens a case at most once. |
| ModerationTheorems.CycleDecisions | apps/lythaus-admin-api/src/index.ts:554-585 | In each review cycle the desk's decisions are queues followed by at most one allow or block. |
| ModerationTheorems.StaleCycleNeverDecides | apps/lythaus-admin-api/src/index.ts:554-554 | A decision naming a cycle the case has left is refused for ever after. |
| ModerationAnswers.DecideExactly | apps/lythaus-admin-api/src/index.ts:498-624 | In every reachable state a decision goes through if and only if the case is open, on the current revision of active content, the named cycle is the latest reopening and the label rules accept; then content, case and history follow the outcome, and otherwise nothing changes and the reply says why. |
| ModerationAnswers.ReopenExactly | apps/lythaus-admin-api/src/moderation-rereview-runtime.ts:70-190 | A re-review goes through if and only if the case is resolved, the token tells its resolution time, revision and final decision, and it is on the current revision of an active post or comment. |
| ModerationAnswers.DisputedRun | apps/lythaus-admin-api/src/index.ts:498-624 | Blocked, reopened under its token, and allowed in the new cycle. |
| ModerationAnswers.OpenCaseExactly | apps/lythaus-jobs/src/index.ts:917-960 | The review job opens a case exactly for active content under review with no case on this revision, with a queue decision, and closes the cases of older revisions. |
| ModerationAnswers.AuthorsExactly | apps/lythaus-public-api/src/index.ts:2126-2160 | New content, edits, deletion and account changes: review, revision and publication each leaves. |
| ModerationAnswers.JobsExactly | apps/lythaus-jobs/src/index.ts:2173-2190 | What the clean-up after a deletion, privacy erasure and retention change, and that they change nothing else. |
| ModerationInvariant.StepKeeps | apps/lythaus-admin-api/src/index.ts:490-624 | The invariant of cases, contents and logs is kept by decide, re-review, edits, deletion, account changes, the review job, privacy erasure and retention. |
| ModerationDesk.Desk.DecideCase | apps/lythaus-admin-api/src/index.ts:498-624 | The decision row by row, with every refusal; no guarded update after the checks can miss. |
| ModerationDesk.Desk.ReopenCase | apps/lythaus-admin-api/src/moderation-rereview-runtime.ts:70-190 | The re-review row by row, with every refusal; no guarded update after the checks can miss. |
| KeysetPaging.WalkIsListing | apps/lythaus-admin-api/src/account-support-runtime.ts:148-156 | Following cursors over any steady selection yields the sorted list, each row once, in ceil(n/limit) pages (one when empty); a shorter walk yields a prefix. |
| KeysetPaging.OrderedIsSorted | apps/lythaus-admin-api/src/account-support-runtime.ts:149-149 | The listing is sorted and holds exactly the selected keys. |
| KeysetPaging.SortedIsUnique | apps/lythaus-admin-api/src/account-support-runtime.ts:149-149 | Such a listing is unique. |
| HistoryListing.HistoryWalk | apps/lythaus-admin-api/src/account-support-runtime.ts:125-160 | Following cursors through the history yields exactly the matching rows at or before the snapshot, sorted, each once, whatever later rows (the walk's own audit rows among them) are added between requests. |
| HistoryPages.HistoryByCursorText | apps/lythaus-admin-api/src/account-support-runtime.ts:45-161 | The same by the texts that travel: following the issued cursor texts, each checked, decoded and giving the snapshot and position of the next page, the client is never refused and receives exactly the rows that matched at the first request's time, in order, each once, in ceil(n/limit) pages. |
| HistoryPages.CursorReturns | apps/lythaus-admin-api/src/account-support-runtime.ts:126-156 | A cursor text comes back as the snapshot and the row it was issued for. |
| UserListing.UserWalk | apps/lythaus-admin-api/src/keeper-runtime.ts:132-178 | The user list, followed through its cursor texts to the end, is the list filtered by search, status and dates at the first request, newest first, each user once, if only newer users are added; no issued cursor is refused. |
| UserListing.CursorReturns | packages/contracts/src/keyset-cursor.ts:8-27 | A two-column cursor text comes back as the row it was issued for. |
| HistoryListing.BuildQuery | apps/lythaus-admin-api/src/account-support-runtime.ts:127-136 | The assembled conditions with their numbered parameters select exactly the wanted rows. |
| HistoryListing.QueryBuilder.Where | apps/lythaus-admin-api/src/account-support-runtime.ts:129-134 | Adding a parameter and its condition narrows the selection by exactly that test and disturbs no earlier one. |
| HistoryListing.QueryBuilder.After | apps/lythaus-admin-api/src/account-support-runtime.ts:136-136 | The row comparison against the cursor, in the requested direction. |
| HistoryCursor.IssuedCursorAccepted | apps/lythaus-admin-api/src/account-support-runtime.ts:45-54 | Every cursor issued for an accepted request passes the length, alphabet, decoding and field checks and decodes back unchanged under the same scope. |
| HistoryCursor.AcceptExactly | apps/lythaus-admin-api/src/account-support-runtime.ts:48-53 | A presented text is honoured exactly when it fits the transport and decodes to a cursor of this scope with well-formed fields. |
| HistoryCursor.ForeignCursorRefused | apps/lythaus-admin-api/src/account-support-runtime.ts:51-51 | Under any other user, filter or order it is refused. |
| HistoryCursor.ScopeTextInjective | apps/lythaus-admin-api/src/account-support-runtime.ts:45-45 | Different scopes have different scope texts. |
| HistoryCursor.CursorFits | apps/lythaus-admin-api/src/account-support-runtime.ts:49-49 | Every issued cursor stays within 2048 characters. |
| Base64Url.DecodeEncode | apps/lythaus-admin-api/src/account-support-runtime.ts:50-50 | The URL-safe transport of section 5 of RFC 4648 without padding decodes back to its bytes. |
| Base64Url.EncodedLength | apps/lythaus-admin-api/src/account-support-runtime.ts:49-49 | A text fits into 2048 characters exactly when it has at most 1536 bytes. |
| SvgPath.PathCalls | scripts/generate-approved-brand-paths.py:28-54 | The translator's loop computes the calls of the parsed command list, failing exactly where its assertions do. |
| SvgPath.AcceptedIffSpelled | scripts/generate-approved-brand-paths.py:33-53 | A token list is accepted exactly when it spells a command list, letters omitted only where implied. |
| SvgPath.TranslationPreservesGeometry | scripts/generate-approved-brand-paths.py:46-51 | The canvas draws what SVG draws for the path data if and only if the data begins with a move and each H or V after a close finds the pen where it stood before, or the data is in error (section 9.3.3 of SVG 2) and its calls draw nothing; in particular when it begins with a move and no H or V directly follows a close. |
| SvgPath.NoLeadingMoveMisdraws | scripts/generate-approved-brand-paths.py:33-51 | Data that begins with a line is accepted and drawn from the origin, where SVG draws nothing. |
| SvgPath.ShorthandAfterCloseMisdraws | scripts/generate-approved-brand-paths.py:37-49 | The smallest path that is drawn wrongly. |
| SvgTree.AcceptedExactly | scripts/generate-approved-brand-paths.py:73-105 | A tree is accepted if and only if every element the walk comes to is proper: known tag and attributes, transforms of one or two numbers, spelled path data and a six-digit colour. |
| SvgTree.OpsDrawTree | scripts/generate-approved-brand-paths.py:73-109 | For every accepted tree the emitted list draws exactly its paths under their composed transforms and inherited fill, and leaves transform and stack as it found them. |
| SvgTree.OpsShowPicture | scripts/generate-approved-brand-paths.py:28-109 | Running the emitted list on any canvas adds exactly the picture SVG means (the shape of each path, its composed transform, its colour and the windows it is cut to) if and only if every path of the tree is drawn faithfully and none lies inside an inner svg, inside another path or inside an element of another namespace. |
| SvgTree.InnerSvgMisdraws | scripts/generate-approved-brand-paths.py:73-108 | A path inside an inner svg is accepted and drawn at full size where SVG shows it at half size. |
| SvgTree.PathInPathMisdraws | scripts/generate-approved-brand-paths.py:103-108 | A path inside a path is accepted and drawn where SVG shows only the outer one. |
| SvgTree.ForeignPathMisdraws | scripts/generate-approved-brand-paths.py:74-75 | A path element of another namespace is accepted and drawn where SVG shows nothing. |
| SvgTree.Generator.WalkNode | scripts/generate-approved-brand-paths.py:73-108 | The recursive walk succeeds exactly on accepted trees and then has appended their list. |
| SvgTree.Generator.EmitTransforms | scripts/generate-approved-brand-paths.py:94-102 | Transform entries with one or two numbers, missing ones filled in. |
| SvgTree.PlayTransforms | scripts/generate-approved-brand-paths.py:96-102 | Applying the entries in turn composes the attribute's product. |
| SvgTree.ComposeTransforms | scripts/generate-approved-brand-paths.py:102-102 | Composed transforms act like one after the other. |
| RoundRobin.RoundRobinSelect | scripts/authenticity/wp007e_build_data_roles.py:52-71 | Terminates; succeeds exactly when 0 <= count <= records; returns that many of them, a prefix of each group, min(size, r) or min(size, r+1) each with the larger ones first in key order, turn by turn. |
| RoundRobin.Turns | scripts/authenticity/wp007e_build_data_roles.py:58-69 | The outer loop: a fair selection, short only when everything is selected. |
| RoundRobin.GroupRecords | scripts/authenticity/wp007e_build_data_roles.py:54-57 | The grouping loop builds exactly the groups that occur, in order. |
| RoundRobin.SortedInOrder | scripts/authenticity/wp007e_build_data_roles.py:55-55 | The sort is in order (and by its contract a permutation). |
| RoundRobin.SortedIsStable | scripts/authenticity/wp007e_build_data_roles.py:55-55 | Records with equal keys keep their order. |
| DataRoles.AssignRoles | scripts/authenticity/wp007e_build_data_roles.py:209-281 | The role assignment: each pooled role is its camera part and then its digital part, the pair base takes the first records of each device and subtype, and calibration, development and confirmation in this order draw round robin from the families no earlier role has used; role sizes, no family given out more often than the inputs hold it, only unsealed cameras and digitals; the roles avoid the sealed families if and only if the transfer records do; with unique families the overlap guard never fires and it succeeds exactly when both pools and the transfer set suffice. |
| DataRoles.SplitPool | scripts/authenticity/wp007e_build_data_roles.py:210-251 | One pool's four roles: the first records of each group, then three round-robin selections in order, each from the families not used yet; with unique families it succeeds exactly when the pair base has its exact size and the pool holds enough. |
| DataRoles.FirstOfEach | scripts/authenticity/wp007e_build_data_roles.py:214-220 | The pair base: a fixed prefix of each device's or subtype's sorted records. |
| DataRoles.UniqueMeansNoOverlap | scripts/authenticity/wp007e_build_data_roles.py:270-281 | With unique families no family has two roles, and no sealed family has one if and only if none is among the transfer roles; which holds when all sealed families are camera and digital ones. |
| DataRoles.SealedAvoidedExactly | scripts/authenticity/wp007e_build_data_roles.py:203-263 | The four pooled roles avoid the sealed families; all six do if and only if the two transfer roles do. |
| DataRoles.AssignSealedFamily | scripts/authenticity/wp007e_build_data_roles.py:203-281 | For unique inputs and any family of the first 128 transfer records: sealing that family as well changes nothing about success, and the assignment gives the sealed family out. |
| DataRoles.RolesAreDisjoint | scripts/authenticity/wp007e_build_data_roles.py:276-281 | An assignment that passes the guard has six pairwise disjoint roles. |
| OverviewScope.WindowsRight | apps/lythaus-admin-api/src/overview-policy.ts:23-34 | The windows are right (first midnight of the period to now; the calendar period before it for as long, or cut to its whole length; comparable exactly when not cut) if and only if no year is misread as a two-digit one; from 1970 on, always. |
| OverviewScope.MisreadHappens | apps/lythaus-admin-api/src/overview-policy.ts:23-34 | Every date in a misread year does get windows, and wrong ones. |
| OverviewScope.YearFiftyWrong | apps/lythaus-admin-api/src/overview-policy.ts:26-27 | One such instant: midnight of June 15 of the year 50. |
| OverviewScope.Succeeds | apps/lythaus-admin-api/src/overview-policy.ts:24-24 | Exactly the unknown periods and invalid dates are refused, and from 1970 on nothing else fails. |
| OverviewScope.TodayComparable | apps/lythaus-admin-api/src/overview-policy.ts:26-33 | Today is always comparable. |
| OverviewScope.YearComparable | apps/lythaus-admin-api/src/overview-policy.ts:26-33 | The year to date fails to compare exactly after the first midnight of a leap year's last day. |
| OverviewScope.MonthComparable | apps/lythaus-admin-api/src/overview-policy.ts:26-33 | The month to date fails to compare exactly once it has run longer than the month before. |
| Calendar.NextDayIsTomorrow | apps/lythaus-admin-api/src/overview-policy.ts:25-27 | The computed calendar of section 21.4.1 of ECMA-262 is the counted one: day 0 is 1970-01-01 and each next day is tomorrow. |
| Calendar.DateOfDay | apps/lythaus-admin-api/src/overview-policy.ts:26-27 | Every date is the date of its day number. |
| Calendar.DayOfDate | apps/lythaus-admin-api/src/overview-policy.ts:25-26 | Every day number is the day number of its date. |
| ControlStream.ReadsFollowLines | apps/lythaus-authenticity-runtime/container/supervisor.py:32-51 | For a stream of at most 4096 bytes, however read, mode and leftover equal the fold of the protocol over its whole lines. |
| ControlStream.ShortStreamsAgree | apps/lythaus-authenticity-runtime/container/supervisor.py:32-51 | Two ways of reading the same short stream agree on verdict, ready, busy and leftover. |
| ControlStream.IndependentExactly | apps/lythaus-authenticity-runtime/container/supervisor.py:35-51 | For any stream the verdict is independent of how reads split it if and only if it has at most 4096 bytes or its bytes are refused anyway: its whole lines contain an invalid one, or its last, unfinished line is over 4096 bytes. |
| ControlStream.ServedExactly | apps/lythaus-authenticity-runtime/container/supervisor.py:38-47 | A child is still served exactly while its whole lines are READY and then START and DONE in turn. |
| ControlStream.AbortExactly | apps/lythaus-authenticity-runtime/container/supervisor.py:48-51 | Of the others, exactly those end in the client's abort that say so after such a beginning; the rest are invalid. |
| ControlStream.GreedyInvalid | apps/lythaus-authenticity-runtime/container/supervisor.py:32-36 | Any longer stream has a reading that is refused as invalid control. |
| ControlStream.SlowlyByLines | apps/lythaus-authenticity-runtime/container/supervisor.py:32-51 | Read byte by byte, a stream of any length is refused exactly when its lines refuse it, and otherwise ends where the fold over its whole lines ends. |
| ControlStream.LongSessionDepends | apps/lythaus-authenticity-runtime/container/supervisor.py:35-51 | A stream of two hundred well-formed requests that is served when read byte by byte and refused when read greedily. |
| Supervisor.Supervise | apps/lythaus-authenticity-runtime/container/supervisor.py:25-52 | The loop over the child's turns computes the run the lemmas are about. |
| Supervisor.ObeyLines | apps/lythaus-authenticity-runtime/container/supervisor.py:37-51 | The inner loop over the buffered lines, with its deadlines. |
| Supervisor.RunTimely | apps/lythaus-authenticity-runtime/container/supervisor.py:38-46 | In every run busy implies ready, and the deadline is that of the phase: startup, active, or the earlier of request start plus limit and active. |
| Supervisor.NoTurnPastDeadline | apps/lythaus-authenticity-runtime/container/supervisor.py:26-29 | A child still supervised was never seen past its startup, request or active deadline. |
| Supervisor.WallDeadlineExactly | apps/lythaus-authenticity-runtime/container/supervisor.py:25-34 | A turn ends in a missed deadline exactly when the child is seen alive past it, and in a process exit exactly at exit or end of stream. |
| Supervisor.SameBytesSameVerdict | apps/lythaus-authenticity-runtime/container/supervisor.py:32-51 | Runs left to their control lines agree on the verdict whenever the bytes agree and fit the limit, whatever the timing and the splits. |

## Left out

- The alpha authenticity pipeline: the same lease and step design as the beta.
- SQL text, isolation levels and the difference between `now()` and `clock_timestamp()`: committed transactions are atomic steps on one clock.
- Hashing, encryption, HMAC, JWT and CORS checks, R2, HTTP and queue plumbing: nondeterministic or uninterpreted.
- The administrator's review action of the beta: it writes feedback and a review flag that no other step reads.
- The beta's event authentication, storage ledger, display image and cost measurement rows: they do not touch the lease, the journal or the case state.
- Mail event parsing, provider error categories and the dispatch of queue messages: single-branch mappings; their results enter as arbitrary events.
- Banner rendering, manifest validation and asset probing of the updater: a manifest or probe result is an arbitrary reply; manual reloads are modelled but the reload-loop theorem speaks of automatic ones.
- Appeals, outbox events, enforcement rows and content declarations written beside a moderation decision.
- ModerationTheorems.CycleDecisions: speaks of the desk's decisions; a community appeal that restores blocked content (packages/db/src/community-appeal-closure.ts, lines 19 to 58) adds an allow decision after the block, and is not modelled.
- ModerationTheorems.ErasedInReview: privacy erasure is modelled row by row, not as one transaction over all rows of a user.
- UserListing.UserWalk: the numbering of the user query's parameters, which repeats `HistoryListing.BuildQuery`; names and handles enter in lower case.
- UserListing.CursorReturns: cursor texts outside printable characters.
- BetaWorker.Program.Process: the event's authentication before the claim, a crash half way (a crash is an event of the protocol), and the kinds of configuration and budget checks, which enter as what each check throws.
- SvgPath.PathCalls: starts from tokens; the regular expressions that cut numbers and letters out of the attribute text, and the printing of numbers, are not modelled, and coordinates are exact reals.
- SvgTree.OpsShowPicture: the picture is in the coordinates of the root; the used size of an inner svg (units, percentages and defaults) is an input, and clipping is recorded as windows, not carried out on shapes.
- SvgTree.Generator.WalkNode: attribute names, aspect ratio and the spacing of transform entries enter as verdicts on the node.
- DataRoles.AssignRoles: record loading, file hashes and the excluded transfer samples are inputs; group and family names are integers in sort order.
- OverviewScope.WindowsRight: windows are time values; their ISO text is not modelled.
- Supervisor.Supervise: killing the process group and clearing the scratch directory; the run is over a finite list of turns.
- Activity, reputation and appeal jobs, the acceptance coordinator, image and model scripts, user interfaces: thin or numeric code without a protocol of their own.
