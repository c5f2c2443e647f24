# Verified models of the Stallorder platform

This project models the parts of the Stallorder platform whose correctness depends on
order, failure or arithmetic, and proves what those parts are for. `dafny verify
dfyconfig.toml` checks all of it.

Each protocol has two forms. A specification describes its steps as functions on values
(`Next`, `After`, `Apply`, `Probe`, ...), and the theorems quantify over every run of those
steps. Beside it stands the stateful component, a class whose methods update its fields in
place as the program does, and whose contracts equate the new state with a step of the
specification. Network, storage and database outcomes, clocks, worker restarts, other
writers and lost replies are events or parameters, so a theorem holds for all of them
unless it says otherwise.

## What is modelled

**Service worker** (`public/sw.js`). Every `await` is a step boundary.

- `PushReceipts`: push deduplication across retries and restarts. A receipt is sent only
  after a notification with its tag was shown, in every run. Two notifications with one
  tag are more than a day apart until the first harmful event: a failed read, a failed write,
  a commit or a restart that loses the record of a tag shown within the last day. The
  condition is exact, since after any harmless run a harmful event can be followed by a
  notification that comes too early. A working store and no restart between showing and
  remembering rule harmful events out.
- `FetchRouting`, `ShellCache`: which strategy handles a request, the disjoint key families
  that follow, and the provenance of every cache entry under any order of late writes. The
  entry of a key is what its last settled operation left. An image's entry is therefore that
  of the latest live answer exactly when its last settled operation leaves what the last one
  due would leave; settling in the order of the answers ensures it, and a run of two
  overlapping answers shows a revoked image coming back.
- `UpdateSafety`: the count of unsynchronized records that guards activation. It is zero
  exactly when every store that holds such a record went unread: the code counts a failed
  read as an empty store, so the guard is only as good as its reads.

**Preview acceptance** (`scripts/qa-preview-*.ts`).

- `PrincipalCleanup`, `ProbeTraces`: the procedural block that removes a synthetic profile.
  It goes through exactly for the databases that `Cleanable` describes, removes exactly the
  owned rows, and leaves every foreign key intact. Whatever part of the probe's own writes
  reached the database, the cleanup gives the former database back.
- `PrincipalProbe`: the steps of the probe under every combination of failures, the error it
  throws, and the reader of that error.
- `PreviewFixture`: borrowing and restoring business hours and printers when the outcome of
  COMMIT is unknown, and the cleanup sequence around it.

**Demonstration seed and cash history** (`prisma/seed.ts`, `cash-shift-board.tsx`).

- `Gregorian`: the day-number algorithms of section 21.4.1 of ECMA-262. `DateText`: date
  strings and their order. `CalendarDates`: the offset of a calendar date, the presets and
  the string filter of the history. Offsetting cuts the ISO text to ten characters, so
  a date beyond year 9999 or before year 0 is read back as the first of its month. Offsets
  therefore add up, and are undone, exactly when the date in between has a four-digit year or
  is a first; `OffsetsAddUpExactly` covers end dates in every year.
- `BillingPeriods`: the periods tile time.
- `DemoLedger`: whatever crashed runs came before, a completed seed run reaches one final
  state and every later completed run reaches it again. The database's payments trigger is
  part of the transaction: a rerun of a seed with other prices commits exactly when every sale
  keeps its total; otherwise the new orders stand beside the old payments.

**Screens and small protocols.**

- `RouteMatcher`: the query matcher of the end-to-end navigation helper is sub-multiset
  inclusion.
- `KitchenQueue`: tasks grouped by order, oldest first; the queue is unique, a partition of
  the tasks, and shown in full by the four sections.
- `LoginMethods`: the sign-in switches, the guard on the screen and the guard in the
  transaction that writes a flag. From a state in which some method works for good, some
  method works in every run, whatever is rejected, lost or expires, with any number of
  screens and clients; that start is exactly what is needed. A lost reply leaves the screen
  behind until it is loaded again, and the write that would take the last method away is
  refused.
- `CatalogVersions`: the life cycle of menu versions, on the screen and in the service.
- `PaygLedger`: what zero counters establish about usage events and invoices, and how the
  audit decides readiness.
- `AnnouncementExpiry`: the re-armed timer and the 32-bit delay limit of section 8.6 of the
  HTML Standard.

## Model

| member | source | states |
|---|---|---|
| PushReceipts.ReceiptOnlyAfterNotification | public/sw.js:52-74 | in every run, with any failures and restarts, each receipt is preceded by a notification with its tag, and only well-formed order tags are used |
| PushReceipts.SameTagNotificationsAreSpaced | public/sw.js:22-74 | in every run without a harmful event, notifications with one tag are more than 86,400,000 ms apart |
| PushReceipts.HarmExposes | public/sw.js:22-74 | an event is harmful exactly when it leaves a tag shown within the last day about to be shown again, or neither in flight nor on record |
| PushReceipts.FirstHarmBreaksSpacing | public/sw.js:51-74 | after any harmless run, a harmful event can be followed, with nothing else failing and no time passing, by a notification that comes too early |
| PushReceipts.ReliableRunsAreHarmless | public/sw.js:22-74 | with a working store and no restart between showing and remembering, no event is harmful, also inside the cursor transaction |
| PushReceipts.ReliableRunsAreSpaced | public/sw.js:22-74 | so in such runs notifications with one tag are more than a day apart |
| PushReceipts.RestartRepeatsNotification | public/sw.js:51-66 | a restart between showing and remembering lets the same tag be shown twice in one millisecond |
| PushReceipts.UnreadableStoreRepeatsNotification | public/sw.js:58-66 | a receipt store that cannot be read back does so too |
| PushReceipts.RetryIsOnlyAcknowledged | public/sw.js:57-73 | a retried push whose tag is on record leaves everything as it was but for one more receipt |
| PushReceipts.PushWorker.OnPush | public/sw.js:52-72 | a push that is not a well-formed staff order, or whose tag is in flight, starts nothing; any other starts reading the record |
| PushReceipts.PushWorker.OnRead | public/sw.js:22-31 | a failed read counts as not shown; a record found goes straight to the receipt |
| PushReceipts.PushWorker.VisitCursor | public/sw.js:40-45 | the cursor removes an entry exactly when it is older than the retention |
| PushReceipts.PushWorker.CommitWrite | public/sw.js:46-70 | the transaction's rows become the store in one step, and the receipt follows |
| PushReceipts.PushWorker.AbandonWrite | public/sw.js:65-70 | a failed write leaves the store alone and the receipt is still sent |
| PushReceipts.PushWorker.RememberPush | public/sw.js:32-50 | the whole cursor loop leaves the new entry and exactly the entries at most a day old |
| FetchRouting.OneStrategyPerKey | public/sw.js:300-335 | two handled requests for one path have one strategy, whatever their modes, so a cache key has one writer |
| FetchRouting.FamiliesAreDisjoint | public/sw.js:308-332 | the key families of the four caching strategies are pairwise disjoint |
| ShellCache.CurrentCacheIsAdmissible | public/sw.js:144-298 | in every run and order of late writes: only ok responses under handled keys, images and menu data that were not no-store, menu pages without a query that may be kept |
| ShellCache.NoSensitiveMenuPageAfterPurge | public/sw.js:161-171 | once the purge has completed, no shell cache holds a menu page under a URL with a query, however it interleaved with late writes |
| ShellCache.CompletionOrderDecides | public/sw.js:238-298 | the entry of a key is what its last settled operation left |
| ShellCache.OverlapRestoresRevokedImage | public/sw.js:261-274 | an ok answer and a later 404 whose operations settle the other way round leave the revoked image cached |
| ShellCache.SettledImageIsLatestLive | public/sw.js:261-274 | in interleaved runs whose operations on an image settle in the order of its answers, the entry is that of the latest ok, not no-store answer since the last 404 or 410; with none, a network failure gets 503 |
| ShellCache.LatestLiveExactly | public/sw.js:261-274 | in every run, whatever fails, overlaps or stops, that is so exactly when the last settled operation leaves what the last one due would leave |
| ShellCache.ImageIsLatestLive | public/sw.js:261-274 | the same for requests handled one after another, with the answers served |
| ShellCache.ShellWorker.CacheFirst | public/sw.js:238-247 | a copy in any cache is served and nothing changes; otherwise only an ok answer is kept, and a failed write rejects |
| ShellCache.ShellWorker.StaleWhileRevalidate | public/sw.js:249-259 | the copy is served whatever the network does; the cache takes only ok answers that are not no-store |
| ShellCache.ShellWorker.NetworkFirstRevocableAsset | public/sw.js:261-274 | the answer, else the copy, else 503; and the exact new cache |
| ShellCache.ShellWorker.NetworkFirstPublicMenuNavigation | public/sw.js:276-298 | the answer, else for server errors and lost connections the copy, else the offline page; and the exact new cache |
| ShellCache.ShellWorker.PurgeSensitiveNavigationEntries | public/sw.js:161-171 | every entry with a query leaves every shell cache and nothing else changes |
| ShellCache.ShellWorker.Activate | public/sw.js:186-207 | caches of other versions go exactly when the count is zero |
| ShellCache.ShellWorker.ActivateUpdate | public/sw.js:221-230 | skipWaiting only at a count of zero; with successful reads never over an unsynchronized record |
| UpdateSafety.CountIsZeroExactly | public/sw.js:94-142 | zero exactly when each store with an unsynchronized record went unread |
| UpdateSafety.ZeroMeansSynchronized | public/sw.js:120-142 | with successful reads, zero exactly when neither store has an unsynchronized status, a missing status counting as PENDING |
| UpdateSafety.FailedReadHidesPendingRecords | public/sw.js:112-118 | a failed read hides a pending record from the count |
| PrincipalCleanup.VerdictIsExact | scripts/qa-preview-principal-cleanup.ts:28-81 | the block's checks, in their order, accept exactly the cleanable databases and then remove exactly the probe's rows |
| PrincipalCleanup.CleanupKeepsReferences | scripts/qa-preview-principal-cleanup.ts:35-71 | no foreign key, single or composite, is left dangling |
| PrincipalCleanup.SurvivorsReferToSurvivors | scripts/qa-preview-principal-cleanup.ts:43-70 | a row that survives refers to no row that is removed |
| PrincipalCleanup.CleanupIsComplete | scripts/qa-preview-principal-cleanup.ts:55-81 | every owned row is gone, every other row is as before, and a second run has nothing to do |
| PrincipalCleanup.LateChecksSuffice | scripts/qa-preview-principal-cleanup.ts:61-81 | the checks made after the first deletes rule out every foreign row that looked owned |
| PrincipalCleanup.ForeignBucketsKept | scripts/qa-preview-principal-cleanup.ts:53-74 | the deletes touch no rate-limit bucket but the probe's |
| PrincipalCleanup.PreviewDatabase.FindReference | scripts/qa-preview-principal-cleanup.ts:43-52 | the loop over foreign keys finds a reference exactly when a row points at the id |
| PrincipalCleanup.PreviewDatabase.DeleteOwnedRows | scripts/qa-preview-principal-cleanup.ts:55-58 | the three deletes, none of which orphans a row |
| PrincipalCleanup.PreviewDatabase.RunBlock | scripts/qa-preview-principal-cleanup.ts:26-82 | the exception raised, by name, or the tables it leaves |
| PrincipalCleanup.PreviewDatabase.Cleanup | scripts/qa-preview-database-principal.ts:135-138 | an error leaves the database unchanged; success comes exactly when cleanable and removes exactly the owned rows |
| ProbeTraces.ProbeLeavesNoTrace | scripts/qa-preview-database-principal.ts:104-138 | whatever part of the probe's writes was committed, the cleanup goes through and gives back the former database |
| ProbeTraces.NothingPointsAtTheProbe | scripts/qa-preview-principal-cleanup.ts:43-52 | in a database with intact references nothing points at the probe's unused ids |
| PrincipalProbe.DiagnosticRoundTrip | scripts/qa-preview-database-principal.ts:16-40 | reading a wrapped error gives exactly the stages and reasons attached to it |
| PrincipalProbe.OnlyListedComesOut | scripts/qa-preview-database-principal.ts:23-40 | any value read, forged or not, yields only listed stages and reasons |
| PrincipalProbe.ReclassifyingAWrappedError | scripts/qa-preview-database-principal.ts:16-22 | classified again, a wrapped error keeps its reason exactly when that is a failure code; a database code is lost |
| PrincipalProbe.FirstLine | scripts/qa-preview-database-principal.ts:17 | the text before the first line feed, less one carriage return |
| PrincipalProbe.FailureDetails | scripts/qa-preview-database-principal.ts:16-22 | every thrown value gives a listed stage and reason, except exactly those whose code getter throws |
| PrincipalProbe.CleanupIsAttempted | scripts/qa-preview-database-principal.ts:105-141 | on every path the cleanup runs exactly when the fixture was attempted, and the final check exactly when the cleanup passed |
| PrincipalProbe.ResultNeedsCleanup | scripts/qa-preview-database-principal.ts:105-142 | a result is returned exactly when no step threw, and then all twelve were performed in order |
| PrincipalProbe.FirstReasonSurvives | scripts/qa-preview-database-principal.ts:131-148 | the first failure's stage and reason are in the error, and its message, whether or not the cleanup fails too; a throwing getter of the last failure is what replaces it |
| PrincipalProbe.LoneFailureIsReported | scripts/qa-preview-database-principal.ts:135-148 | a failure before the fixture, or of the cleanup or final check alone, is the final stage and the only one |
| PrincipalProbe.PrincipalVerifier.VerifyPreviewDatabasePrincipal | scripts/qa-preview-database-principal.ts:61-148 | the stages performed and the error thrown, for every combination of failing steps |
| PreviewFixture.RestorationIsExact | scripts/qa-preview-fixture-state.ts:50-72 | a restoration that commits shows exactly the before image, leaves foreign rows alone, and can be repeated |
| PreviewFixture.RestorationSucceeds | scripts/qa-preview-fixture-state.ts:54-70 | it commits exactly when the borrowed rows show one of the two images |
| PreviewFixture.RestorationResolvesUnknownCommit | scripts/qa-preview-fixture-state.ts:42-46 | committed or not, the tables come back in every column |
| PreviewFixture.FixtureStepOutcome | scripts/qa-preview-public-order.ts:113-118 | after the fixture step the tables are the original ones or the step failed; rows of another writer are kept |
| PreviewFixture.WriteBackUndoesUpdate | scripts/qa-preview-fixture-state.ts:57-67 | writing the preserved columns back undoes an update of any table |
| PreviewFixture.PreviewQa.Prepare | scripts/qa-preview-fixture-state.ts:30-48 | images, tables and outcome for each way the transaction can end |
| PreviewFixture.PreviewQa.Restore | scripts/qa-preview-fixture-state.ts:50-72 | the committed restoration, or the tables as they were |
| PreviewFixture.PreviewQa.FinishPreviewQa | scripts/qa-preview-cleanup.ts:9-19 | four steps, once, in order, whatever fails; throws exactly when something failed; keeps the run's failure; lists exactly the failed steps |
| PreviewFixture.PreviewQa.AcceptanceRun | scripts/qa-preview-public-order.ts:45-120 | over the whole run the tables come back or the fixture step is reported; the first failure is the one thrown; other writers' rows survive |
| Gregorian.DayFromYearFormula | prisma/seed.ts:1484-1488 | the closed formula of ECMA-262 counts the days of the years |
| Gregorian.FieldsMakeTheDay | prisma/seed.ts:1486 | the fields of a day make that day, and an offset of the date carries over months and years |
| Gregorian.DayHasItsFields | prisma/seed.ts:1502-1505 | the day made of valid fields has those fields |
| Gregorian.FieldOrderIsDayOrder | src/components/cash-shift-board.tsx:391-395 | days are ordered as year, month and date are |
| DateText.WrittenFieldsAreRead | prisma/seed.ts:1484-1488 | reading the ten characters gives the fields back, beyond four-digit years the first of the month |
| DateText.StringOrderIsFieldOrder | src/components/cash-shift-board.tsx:393-394 | date strings compare as their fields do |
| CalendarDates.StringOrderIsTimeOrder | src/components/cash-shift-board.tsx:393-394 | string order is time order for years 0000 to 9999 |
| CalendarDates.OffsetCalendarDate | prisma/seed.ts:1484-1488 | the day moves by exactly the offset, for every string the source parses, with the same errors |
| CalendarDates.OffsetsAddUpExactly | prisma/seed.ts:1484-1488 | for every text that is read as a day, when offsets by a and then b give what a + b gives, in all years |
| CalendarDates.OffsetsAddUp | prisma/seed.ts:1484-1488 | towards a four-digit year: exactly when the date in between has a four-digit year or is a first |
| CalendarDates.OffsetIsUndoneExactly | prisma/seed.ts:1484-1488 | offset by n then -n is the identity exactly when the date in between has a four-digit year or is a first |
| CalendarDates.HistoryFilterIsChronological | src/components/cash-shift-board.tsx:391-395 | the string filter keeps exactly the shifts opened from the first to the last day, Taipei time |
| CalendarDates.MoveStart | src/components/cash-shift-board.tsx:409-414 | the week starts on the Monday at most six days back, the month on its 1st |
| CalendarDates.ApplyHistoryPreset | src/components/cash-shift-board.tsx:405-419 | the strings written are those of the range, and the filter then shows exactly the shifts opened in it |
| BillingPeriods.PeriodCoversNow | prisma/seed.ts:1494-1508 | every instant since 1980 lies in its own period, after its pricing took effect |
| BillingPeriods.PeriodsDoNotOverlap | prisma/seed.ts:1494-1508 | no instant lies in two periods |
| BillingPeriods.PeriodsFollowOnEachOther | prisma/seed.ts:1502-1505 | a period's end is the next period's start, in December too |
| DemoLedger.SeedConverges | prisma/seed.ts:637-872 | after any crashed runs a completed run reaches the final state, and after any further runs the next completed one reaches it again |
| DemoLedger.RunStaysRerunnable | prisma/seed.ts:639-720 | a run stopped after any write keeps the time base and a prefix of the final state |
| DemoLedger.SettlingCompletes | prisma/seed.ts:791-872 | the shift the seed closed never trips the completeness check; it throws only for another open shift |
| DemoLedger.FinalShiftBalances | prisma/seed.ts:783-871 | the shift strictly contains every payment, expected and counted are their sum, the variance is zero |
| DemoLedger.RepricedRerun | supabase/migrations/20260828110000_authorized_completed_payment_correction.sql:15-40 | after the shift is closed, a rerun with other prices rewrites orders and items, keeps payments and shift, and commits exactly when every total stays |
| DemoLedger.RepricedRerunAgreesExactly | prisma/seed.ts:817-871 | orders and payments agree after it exactly when every total stayed |
| DemoLedger.OneDollarMore | prisma/seed.ts:647-720 | with every price a dollar higher, the first order asks for three dollars more than was paid |
| DemoLedger.DemoSeed.SettlePayments | prisma/seed.ts:791-872 | the settled ledger, or an error and the ledger as it was, the refusals of the payments trigger included |
| DemoLedger.DemoSeed.Seed | prisma/seed.ts:637-872 | the ledger a run leaves when it stops after any number of writes, and when it completes |
| RouteMatcher.MatchesExpectedRoute | e2e/local-navigation.ts:330-349 | true exactly when origin and path agree and the expected pairs are a sub-multiset of the actual ones |
| RouteMatcher.TakeAll | e2e/local-navigation.ts:342-347 | the splice loop consumes each expected pair once, or finds it missing |
| RouteMatcher.PushAdds | e2e/local-navigation.ts:337-341 | pushing a value adds its pair to what the index holds |
| RouteMatcher.SpliceRemoves | e2e/local-navigation.ts:343-346 | splicing at an index removes exactly one occurrence of its pair |
| RouteMatcher.RepeatsAreRespected | e2e/local-navigation.ts:342-347 | extra pairs never hurt; one repeat more than there is fails |
| RouteMatcher.MatchingIsAPreorder | e2e/local-navigation.ts:330-349 | reflexive, transitive, and both ways only between reorderings |
| KitchenQueue.GroupTasksByOrder | src/components/kitchen-board.tsx:562-570 | one group per order, headed by its first task, with its tasks in input order; oldest first, ties as first seen |
| KitchenQueue.QueueIsUnique | src/components/kitchen-board.tsx:562-570 | those properties determine the queue |
| KitchenQueue.GroupingIsAPartition | src/components/kitchen-board.tsx:564-568 | the groups put together are a permutation of the tasks |
| KitchenQueue.SortIsStable | src/components/kitchen-board.tsx:569 | sorting elements given by rank breaks ties by rank |
| KitchenQueue.PreferredKitchenOrderId | src/components/kitchen-board.tsx:572-575 | the first order that is not ready, else the first, else none |
| KitchenQueue.EveryOrderShownOnce | src/components/kitchen-board.tsx:444-458 | the four sections show every order exactly once |
| LoginMethods.NeverLockedOut | src/server/resilience/feature-flag-service.ts:533-597 | from a state in which some method works for good, one works in every run of clicks, writes, lost and rejected replies, other clients and expiring overrides |
| LoginMethods.LastingMethodIsNeeded | src/server/resilience/feature-flag-service.ts:549-560 | that start is exactly what is needed for some method to work in every run |
| LoginMethods.AnAdministratorKeepsAccess | src/server/resilience/feature-flag-service.ts:583-596 | one of the administrators who write can sign in throughout, in environments where Google is settled |
| LoginMethods.SettledGoogleIsNeeded | src/server/auth/oauth/login-method-availability.ts:30-44 | exactly in those environments no expiring override takes an administrator's only method |
| LoginMethods.RefusalsAreExact | src/server/resilience/feature-flag-service.ts:561-596 | a write is refused exactly when its administrator could not sign in, the password is under the restriction to OAuth, or the provider has no credentials |
| LoginMethods.LostReplyLeavesTheScreenBehind | src/components/admin-login-method-controls.tsx:124-141 | after a lost reply the screen still shows the method, exactly when the write was accepted, until it is loaded again |
| LoginMethods.LastMethodIsRefused | src/server/resilience/feature-flag-service.ts:579-582 | a write that would leave no method stores nothing, and the screen keeps its view and reports an error |
| LoginMethods.AfterALostReply | src/components/admin-login-method-controls.tsx:81-142 | provider off with a lost reply, then password off: the server refuses and the password works |
| LoginMethods.ScreenGuardAgrees | src/components/admin-login-method-controls.tsx:83-119 | what an up-to-date screen refuses to switch off would leave no method; where every provider shown works the two guards agree |
| LoginMethods.ScreenShowsTheServer | src/components/admin-login-method-controls.tsx:62-142 | while no reply is lost and nobody else writes, a loaded screen shows what is stored, also between two writes and when the second fails |
| LoginMethods.GuardLooksForAnother | src/components/admin-login-method-controls.tsx:83-119 | the screen refuses to switch a method off exactly when it shows no other |
| LoginMethods.WriteEffects | src/server/auth/oauth/login-method-availability.ts:23-50 | a method switched on hides no other, one switched off hides itself alone, and exactly which providers the foundation makes work |
| LoginMethods.FeatureFlagService.SetOverride | src/server/resilience/feature-flag-service.ts:629-669 | accepted exactly as the guard says; refused, it stores nothing |
| LoginMethods.LoginMethodControls.TogglePassword | src/components/admin-login-method-controls.tsx:81-106 | refused, waiting for confirmation, or writing, with the error flag |
| LoginMethods.LoginMethodControls.ToggleProvider | src/components/admin-login-method-controls.tsx:108-142 | likewise, with the foundation written first exactly when it is off and the provider goes on |
| LoginMethods.LoginMethodControls.OnReply | src/components/admin-login-method-controls.tsx:62-79 | what the service and the screen hold after a write that was acknowledged, rejected, lost, or refused by the guard |
| CatalogVersions.OfferedIsAllowed | src/components/catalog-version-manager.tsx:40-50 | the offered actions are the allowed transitions less four |
| CatalogVersions.RunKeepsOneActive | src/server/catalog-versions/catalog-version-service.ts:210-251 | no run of commands makes two versions of a menu active |
| CatalogVersions.ActiveIsLostByWithdrawal | src/server/catalog-versions/catalog-version-service.ts:228-243 | a menu is left without its active version exactly by rolling back or superseding that version |
| CatalogVersions.ActivationWasReviewed | src/server/catalog-versions/catalog-version-contract.ts:33-53 | an active version was, since last a draft, in review, then approved, then publishing |
| CatalogVersions.ActiveOnce | src/server/catalog-versions/catalog-version-contract.ts:33-44 | a version is active for one stretch at most; archived is for good |
| CatalogVersions.ArchiveIsReachable | src/components/catalog-version-manager.tsx:40-50 | offered actions lead from every status to ARCHIVED in as many steps as its rank |
| CatalogVersions.ArchiveTakesThatLong | src/components/catalog-version-manager.tsx:40-50 | and no path of offered actions is shorter |
| CatalogVersions.OffersAreHonoured | src/components/catalog-version-manager.tsx:83-133 | with one screen and no lost answer the screen shows what the service lists, and only a module that was switched off makes it refuse what is offered |
| CatalogVersions.CatalogService.TransitionCatalogVersion | src/server/catalog-versions/catalog-version-service.ts:210-251 | accepted exactly when the module is on and the transition is allowed and scheduled where needed; refused, it changes nothing |
| CatalogVersions.CatalogVersionManager.BeginTransition | src/components/catalog-version-manager.tsx:83-90 | one command at a time, and none to schedule without a date |
| CatalogVersions.CatalogVersionManager.EndTransition | src/components/catalog-version-manager.tsx:93-133 | the list, the service and the busy flag after each way a command can end |
| PaygLedger.CountersAreExact | scripts/audit-payg-production.ts:66-75 | what each counter being zero means, missing references included |
| PaygLedger.RefundsNeverExceedCompletions | scripts/audit-payg-production.ts:66-103 | refunds inject into completions, and the difference counts the references completed and not refunded |
| PaygLedger.InvoicesBalance | scripts/audit-payg-production.ts:80-86 | without mismatches, subtotals and taxes less discounts equal payments and dues in total |
| PaygLedger.Auditor.CheckContract | scripts/audit-payg-production.ts:18-53 | one result for each contract check, each with the verdict on its own matter |
| PaygLedger.Audit | scripts/audit-payg-production.ts:101-123 | thirteen checks in order, each passing exactly on its own condition; NOT_READY exactly when one failed; else as the flags say |
| PaygLedger.ReadyMeansBalanced | scripts/audit-payg-production.ts:103-123 | a ledger that is ready has no more refunds than completions |
| AnnouncementExpiry.DelaysSurvive | src/components/menu-notice-dialogs.tsx:32-34 | every delay is between 1 and 2,147,483,647 and survives the 32-bit conversion; the full wait would exactly up to that limit |
| AnnouncementExpiry.ClosesAfterItsEnd | src/components/menu-notice-dialogs.tsx:30-36 | however far the end, it closes, never early, and late by the last timer's lag at most |
| AnnouncementExpiry.TimersNeeded | src/components/menu-notice-dialogs.tsx:30-35 | the number of timers, at most and when punctual |
| AnnouncementExpiry.MenuNotice.ScheduleExpiry | src/components/menu-notice-dialogs.tsx:30-35 | closes, re-arms or does nothing |
| AnnouncementExpiry.MenuNotice.OnTimer | src/components/menu-notice-dialogs.tsx:30-35 | a fired timer closes the notice exactly when its end has come, else re-arms |

## Left out

- LoginMethods.NeverLockedOut: the environment and the administrators' identities do not change during a run; overrides for a percentage, and flags cached for a moment by the page, are not modelled; the readiness check behind the restriction to OAuth only makes a write fail, as rejected.
- DemoLedger.DemoSeed.Seed: rows that staff change by hand, such as a refunded payment, and the stock triggers on order items are not modelled; prices are positive.
- DemoLedger.SeedConverges: assumes that no other shift is open at the first completed run and that the prices are those of one version of the seed, which the seed itself writes before its orders.
- UpdateSafety.ZeroMeansSynchronized: assumes successful reads; `CountIsZeroExactly` covers the others.
- ShellCache.ShellWorker.ActivateUpdate: the gap between counting and activating, while pages keep writing records, is not modelled.
- BillingPeriods.PeriodCoversNow: takes Taipei as UTC+8, which holds since 1980, in place of the time zone database behind `Intl.DateTimeFormat`.
- ProbeTraces.ProbeLeavesNoTrace: assumes that the generated ids are unused and that other clients do not write meanwhile.
- KitchenQueue.GroupTasksByOrder: creation times are integers, which stands for comparing ISO timestamps of one format by locale; the sort is written out as a stable insertion sort in place of the built-in one.
- CatalogVersions.OffersAreHonoured: the list is not cut to the hundred newest versions, and an unparsable schedule date is not modelled; an answer whose list fails after the write counts as lost.
- PaygLedger.Audit: the integrity of a sealed contract is a given predicate, because `assertPaygContractIntegrity` hashes it; period anomalies, missing snapshots and invalid subscriptions enter as their counts.
- AnnouncementExpiry.MenuNotice.ScheduleExpiry: an end time that is not a date is not modelled, nor is the refresh that first shows the announcement, since `activeMenuAnnouncement` is not part of this model.
- Service worker: the local-development branch, installation failure, sync and notification-click handlers; in-flight sharing keeps one delivery id, so the second id of two pushes that share a task is not tracked; a notification that appears after the worker stopped is not tracked.
- IndexedDB, Cache Storage and SQL: maps and atomic steps; locks and serializable isolation become atomic transactions; `Vary` and partial responses count as failed cache writes.
- Regular expressions over headers and HTML: predicates or given facts about a response.
- Principal probe: URL, header and body checks inside a step count only through whether the step throws; an error's message is taken to be a string.
- Principal cleanup: checks of identifiers and digests and the building of the SQL text; a comparison of bucket snapshots by hash counts as comparison of the rows.
- Fixture snapshots are maps by id instead of lists ordered by day and id, which order them the same way; the deletion of the acceptance order and the browser steps are only steps that may fail.
- Calendar strings: years below 1000, which the history's own formatter does not pad, and strings that are not calendar dates beyond their being rejected.
- Demonstration seed outside the ledger of orders, payments and the cash shift; the order items' and payments' constant columns.
- React rendering, translations, dialogs and API handlers around the modelled components.
