# Verified model of the trading client's reconciliation protocols

This project models, in Dafny, the parts of the EasiFlux desktop trading client that must stay right under every
interleaving of user actions, requests in flight and late answers, together with the data transformations and
recognisers they rely on:

- the chart workspace autosave (`src/services/chartWorkspaceAutosave.ts`) and the store it saves to;
- the arbitration of plugin catalog snapshots and toggles, and the authority to run commands (`src/stores/plugin.ts`);
- the API session and its notification token (`src-tauri/src/api/client.rs`);
- order submission in the store (`src/stores/order.ts`) and in the journal behind it
  (`src-tauri/src/services/order_submission.rs`);
- the notification list (`src/stores/notification.ts`);
- switching the chart context, filling gaps between k-lines and merging k-lines (`src/stores/market.ts`,
  `src/utils/chartWorkspace.ts`);
- exact decimal comparison and the bounds of strategy policies and runs (`src/services/pluginStrategyService.ts`);
- the version recogniser (`src/services/pluginService.ts`) and the manifest comparison
  (`src/services/pluginManifestDiff.ts`).

## How the model is built

Every protocol has a state machine: a `State`, one function per action, an `Event` type, `Step` and `Run`. An action
with an `await` is cut there; the part before it leaves an operation in flight, and the part after it is a separate
event, so a run is any interleaving. Theorems quantify over all runs, often over all continuations of all runs. Where
an environment must behave for a property to hold (a backend whose content is a function of generation and revision, a
journal that echoes intents, answers that belong to their request), this is a predicate on each event, named `Honest`
or the like, and everything else about the environment is adversarial.

Beside the state machine of each client object stands a class with the fields of the original, the larger ones grouped
into records. Its methods update those fields in place, with the original's branches and loops, and each is proved to
take exactly the step of the state machine; the methods that handle an event also keep `Valid()`, the state machine's
invariant. The theorems about the state machine are thereby theorems about the class.
The order journal, which lives in files, is modelled on values.

Hashes are injective, and so are content fingerprints up to the order of keys (`CanonicalJson` proves this of the
canonical form they print). UUIDs and tickets are fresh numbers, and identifiers that are only compared are opaque
types.

| files | subject |
|---|---|
| `AutosaveModel`, `AutosaveProofs`, `AutosaveTheorems`, `AutosaveDrain`, `AutosaveRuns`, `AutosaveDurability`, `Autosave` | autosave |
| `CatalogModel`, `CatalogLists`, `CatalogProofs`, `CatalogTheorems`, `CatalogAuthority`, `Catalog` | plugin catalog |
| `ApiSessionModel`, `ApiSessionTheorems`, `ApiSession` | API session |
| `OrderModel`, `OrderTheorems`, `OrderFlags`, `Orders`, `OrderJournal` | order submission |
| `NotificationModel`, `NotificationTheorems`, `Notifications` | notification list |
| `ContextSwitch`, `KlineSeries`, `GapFill`, `KlineMerge`, `CanonicalJson` | charts |
| `DigitStrings`, `DecimalText`, `DecimalModel`, `Decimal`, `StrategyRun` | quantities |
| `Splitting`, `SemVer`, `ManifestDiff` | plugin manifests |
| `Common` | shared small definitions |

## What turned out not to hold

Each of these comes with a run or an input that shows it, and with the exact condition under which the wished-for
property does hold.

- A drain does not always empty its queue (`AutosaveTheorems.OvertakenPayloadStaysQueued`). It leaves exactly the keys
  whose payload had been overtaken, before the drain, by an edit that the active source does not capture
  (`AutosaveDrain.DrainLeavesIff`).
- After an import or removal ends, commands can run again without any request begun after that end, if its snapshot is
  refused and an older request is still outstanding (`CatalogAuthority.IgnoredImportRun`). A request begun after the
  import or removal began is always needed (`CatalogAuthority.CommandsNeedALaterRequest`), and one begun after its end
  exactly under the condition of `CatalogAuthority.EndNeedsNewRequestIff`.
- The availability shown by the catalog depends on the order of delivery (`CatalogTheorems.AvailabilityRuns`), although
  items, generation and revisions do not; `CatalogTheorems.AvailabilityDependsOnOrder` says exactly when.
- `clearOrders` forgets unresolved intents within one account and epoch, so another of the same kind can be sent
  (`OrderTheorems.ClearedOrdersDoubleRun`), exactly when the next journal read lists no blocking entry
  (`OrderTheorems.ClearedOrdersCanDouble`). The journal refuses it once the first intent is written there
  (`OrderJournal.UnsettledIntentBlocks`).
- A further page of notifications may be appended to a list it does not continue (`NotificationTheorems.LateReloadRun`);
  `NotificationTheorems.AppendedPageContinuesIff` says exactly when it continues.
- Gap filling is idempotent exactly when no gap exceeds 501 intervals (`GapFill.NormalizedTwiceIff`).
- A zero written with more than 28 decimals is refused although it is in range (`Decimal.LongZeroIsRefused`);
  `Decimal.AcceptedExactly` says exactly which strings are accepted.
- After a failed context switch the backend may serve another context than the one shown
  (`ContextSwitch.FailureLeavesBackendAhead`); `ContextSwitch.BackendIsAheadIff` says exactly when it does.

## Model

| member | source | states |
|---|---|---|
| `AutosaveTheorems.DirtyEquivalence` | src/services/chartWorkspaceAutosave.ts:174-248 | in every reachable state, for each key and for the preferences: revision > acknowledged revision exactly when a capture is needed or a payload is pending; the acknowledged one is never ahead |
| `AutosaveTheorems.CountersNeverFall` | src/services/chartWorkspaceAutosave.ts:299-528 | over any continuation of any run, no revision, acknowledged revision or force generation is ever lower |
| `AutosaveTheorems.NothingPendingIsAcknowledged` | src/services/chartWorkspaceAutosave.ts:448-528 | whenever nothing is pending and no capture is needed, the observed fingerprint is the acknowledged one |
| `AutosaveTheorems.RevisionCarriesOneContent` | src/services/chartWorkspaceAutosave.ts:338-346 | at any two moments of a run, view payloads of one key with the same revision are the same payload |
| `AutosaveTheorems.PreferencesRevisionCarriesOneContent` | src/services/chartWorkspaceAutosave.ts:348-360 | the same for the preferences |
| `AutosaveTheorems.AnswerDropsOnlyWhatItSaved` | src/services/chartWorkspaceAutosave.ts:463-491 | a save answer drops a pending view only if that very payload was sent and its durability confirmed; otherwise the content stays pending |
| `AutosaveTheorems.AnswerDropsOnlySavedPreferences` | src/services/chartWorkspaceAutosave.ts:493-525 | the same for the preferences |
| `AutosaveTheorems.PendingViewFate` | src/services/chartWorkspaceAutosave.ts:208-528 | no update is lost by any step: a pending view stays pending (as itself or a newer capture), or is replaced by an adopted snapshot at least as new, or is acknowledged as itself |
| `AutosaveTheorems.PendingPreferencesFate` | src/services/chartWorkspaceAutosave.ts:208-528 | the same for the preferences |
| `AutosaveTheorems.QueueIsExact` | src/services/chartWorkspaceAutosave.ts:563-577 | in every reachable state the queue has no duplicates, agrees with its id set, and holds exactly the keys with a pending view, an unserved forced flush or the pending preferences |
| `AutosaveTheorems.OutstandingStep` | src/services/chartWorkspaceAutosave.ts:263-281 | while a save is outstanding no other step clears a forced flush, and a new force request raises the generation |
| `AutosaveTheorems.LateForceSurvives` | src/services/chartWorkspaceAutosave.ts:452-461 | a flush forced while a save is outstanding survives the answer to that save, whatever happens in between |
| `AutosaveTheorems.OvertakenPayloadStaysQueued` | src/services/chartWorkspaceAutosave.ts:325-329 | a run from the start, to the end of its drain, that leaves the queue not empty: an edit owed by one capture source when another takes over keeps the old payload queued, whatever is answered |
| `AutosaveDrain.ServePart` | src-tauri/src/services/chart_workspace.rs:164-313 | serving a part against the store makes exactly its content durable, or rebases it ahead of the store; a part already ahead needs no rebase; an overtaken one is left alone |
| `AutosaveDrain.FirstCycle` | src/services/chartWorkspaceAutosave.ts:399-419 | after the first pass everything is settled, or everything left is ahead of the store and another pass is requested |
| `AutosaveDrain.SecondCycle` | src/services/chartWorkspaceAutosave.ts:484-490 | a pass over parts that are all ahead of the store settles everything and requests no further pass |
| `AutosaveDrain.DrainIsBounded` | src/services/chartWorkspaceAutosave.ts:399-419 | with a quiet client and a store that accepts exactly the newer revisions, at most two passes leave nothing that could be saved |
| `AutosaveDrain.DrainLeavesIff` | src/services/chartWorkspaceAutosave.ts:399-419 | a drain leaves queued exactly the keys whose pending payload had, before it began, been overtaken by an edit that the active source does not capture: the exact condition for an empty queue |
| `AutosaveDrain.DrainSaves` | src/services/chartWorkspaceAutosave.ts:399-419 | a view and preferences captured before the drain end up durable, with their content, at the revision the client has acknowledged |
| `AutosaveRuns.PassRuns` | src/services/chartWorkspaceAutosave.ts:404-418 | served save by save through the events of the state machine, the rest of a pass comes out as the loop over its keys says |
| `AutosaveRuns.FlushDrains` | src/services/chartWorkspaceAutosave.ts:263-281 | from every reachable idle state, a flush followed by the store's answers and nothing else is a run that comes to rest: no key saved more than twice, nothing left that could be saved, and queued exactly what was left behind |
| `AutosaveDurability.AcknowledgedIsDurable` | src/services/chartWorkspaceAutosave.ts:448-528 | with saves served and answered at any time, answers lost, snapshots adopted late and other writers, the store holds what the service has acknowledged, at that revision and content, or something newer |
| `AutosaveDurability.CleanIsDurable` | src/services/chartWorkspaceAutosave.ts:208-248 | a part the service holds to be clean is durable as last observed, or something newer is |
| `AutosaveDurability.SaveMovesOn` | src-tauri/src/services/chart_workspace.rs:164-313 | the store only moves to newer revisions, and an accepted answer is true of what it then holds |
| `Autosave.ChartWorkspaceAutosave.constructor` | src/services/chartWorkspaceAutosave.ts:120-144 | starts in the initial state |
| `Autosave.ChartWorkspaceAutosave.RegisterCaptureSource` | src/services/chartWorkspaceAutosave.ts:146-154 | adds an enabled registration once, and changes nothing else |
| `Autosave.ChartWorkspaceAutosave.SetActive` | src/services/chartWorkspaceAutosave.ts:163-170 | activates, or deactivates only itself; a removed source does nothing |
| `Autosave.ChartWorkspaceAutosave.Unregister` | src/services/chartWorkspaceAutosave.ts:197-204 | removes the registration and the activation it holds |
| `Autosave.ChartWorkspaceAutosave.ReadActiveCapture` | src/services/chartWorkspaceAutosave.ts:287-297 | the active registration with its key, if it exists and the key can be read |
| `Autosave.ChartWorkspaceAutosave.MarkViewDirty` | src/services/chartWorkspaceAutosave.ts:174-183 | whole new state: revision above both counters, capture owed by this source |
| `Autosave.ChartWorkspaceAutosave.MarkPreferencesDirty` | src/services/chartWorkspaceAutosave.ts:184-196 | the same for the preferences, remembering the key |
| `Autosave.ChartWorkspaceAutosave.RemoveFromQueueIfClean` | src/services/chartWorkspaceAutosave.ts:569-578 | removes the key exactly if nothing of it is left to save |
| `Autosave.ChartWorkspaceAutosave.AdoptSnapshot` | src/services/chartWorkspaceAutosave.ts:208-248 | whole new state of adoption: replaces what is not newer, else raises the acknowledgement, and cleans the queue |
| `Autosave.ChartWorkspaceAutosave.CaptureActive` | src/services/chartWorkspaceAutosave.ts:299-363 | whole new state of a capture, recapture at a moved revision included |
| `Autosave.ChartWorkspaceAutosave.DetectChanges` | src/services/chartWorkspaceAutosave.ts:308-322 | an unmarked difference is marked |
| `Autosave.ChartWorkspaceAutosave.StoreCapture` | src/services/chartWorkspaceAutosave.ts:324-360 | what is owed by this source is stored as payload and queued |
| `Autosave.ChartWorkspaceAutosave.CreateAttempt` | src/services/chartWorkspaceAutosave.ts:421-446 | exactly the pending payloads and the force generation of the key |
| `Autosave.ChartWorkspaceAutosave.ApplyResult` | src/services/chartWorkspaceAutosave.ts:448-528 | whole new state of a save answer: acknowledge, ignore or rebase each part, and clean the queue |
| `Autosave.ChartWorkspaceAutosave.ApplyViewResult` | src/services/chartWorkspaceAutosave.ts:463-491 | the view half of a save answer |
| `Autosave.ChartWorkspaceAutosave.ApplyPreferencesResult` | src/services/chartWorkspaceAutosave.ts:493-525 | the preferences half of a save answer |
| `Autosave.ChartWorkspaceAutosave.RunCycle` | src/services/chartWorkspaceAutosave.ts:404-417 | skips clean keys up to the next request to await |
| `Autosave.ChartWorkspaceAutosave.BeginCycle` | src/services/chartWorkspaceAutosave.ts:400-403 | a pass works on a copy of the queue taken after a capture |
| `Autosave.ChartWorkspaceAutosave.PrepareFlush` | src/services/chartWorkspaceAutosave.ts:264-270 | captures, and forces the candles out unless by timer |
| `Autosave.ChartWorkspaceAutosave.Flush` | src/services/chartWorkspaceAutosave.ts:263-281 | starts a drain if none runs; the invariant is kept |
| `Autosave.ChartWorkspaceAutosave.AnswerSave` | src/services/chartWorkspaceAutosave.ts:410-418 | an answer or failure is applied and the drain goes on |
| `Autosave.ChartWorkspaceAutosave.DrainPass` | src/services/chartWorkspaceAutosave.ts:401-417 | one pass against the store |
| `Autosave.ChartWorkspaceAutosave.DrainQuietly` | src/services/chartWorkspaceAutosave.ts:399-419 | the whole drain loop ends after one or two passes with nothing left that could be saved, and queued exactly what was left behind before it |
| `CatalogTheorems.CatalogConfluence` | src/stores/plugin.ts:399-487 | two runs that delivered the same snapshots and toggle answers, in any order, show the same generation, items, item revisions and global revision |
| `CatalogTheorems.HighestDeliveredWins` | src/stores/plugin.ts:399-487 | the generation is the highest delivered, and each item is at the highest revision delivered for it in that generation |
| `CatalogTheorems.ItemProvenance` | src/stores/plugin.ts:384-487 | each shown item is the backend's at its confirmed revision; ids are strictly sorted and are exactly those of the generation; the global revision is the maximum |
| `CatalogTheorems.ConfirmedRevisionsNeverFall` | src/stores/plugin.ts:906-918 | generations never fall, and inside one neither do item revisions or the global revision |
| `CatalogTheorems.NothingIsEverReadded` | src/stores/plugin.ts:456-467 | for any backend whose snapshots list strictly increasing ids, no same-generation snapshot that is adopted leaves an item to re-add: that branch is dead |
| `CatalogTheorems.ShownIdsAscend` | src/services/pluginService.ts:691-693 | for any such backend the ids shown are strictly increasing |
| `CatalogTheorems.MembershipIsFixed` | src/stores/plugin.ts:384-397 | for any such backend a generation shows the same ids in the same places throughout |
| `CatalogTheorems.AvailabilityDependsOnOrder` | src/stores/plugin.ts:479-484 | in every reachable race of a snapshot and a toggle answer, both orders show the same availability exactly when the toggle is not newer or the snapshot brings no other availability |
| `CatalogTheorems.AvailabilityRuns` | src/stores/plugin.ts:479-484 | two runs from the start that differ only in the order of two answers and show another availability |
| `CatalogAuthority.StepAuthority` | src/stores/plugin.ts:196-214 | every step keeps the count of active mutations equal to the outstanding toggles, imports and removals, and never lowers the epoch |
| `CatalogAuthority.StepRequests` | src/stores/plugin.ts:523-541 | every step keeps the count of snapshot requests, an epoch of its own for each, no authority while an import or removal is outstanding, and a reload behind a loading status |
| `CatalogAuthority.OnlyMutation` | src/stores/plugin.ts:523-541 | the counter value checked at confirmation means that no other mutation is outstanding |
| `CatalogAuthority.AvailableOnlyAtRest` | src/stores/plugin.ts:196-206 | in every reachable state commands are available only while no request and no toggle is outstanding |
| `CatalogAuthority.AuthorityStaysLost` | src/stores/plugin.ts:523-541 | authority lost stays lost until a snapshot requested later is adopted with no other mutation outstanding |
| `CatalogAuthority.CommandsNeedFreshConfirmation` | src/stores/plugin.ts:196-214 | after a toggle, import or removal ends in a way that invalidates, commands are available only after a snapshot requested after that end is adopted with no other mutation outstanding |
| `CatalogAuthority.CommandsNeedALaterRequest` | src/stores/plugin.ts:523-541 | after an import or removal ends in any way but confirmed by its own snapshot, the same holds of a snapshot requested after the import or removal began |
| `CatalogAuthority.EndNeedsNewRequestIff` | src/stores/plugin.ts:523-541 | after such an end, commands need a request begun after the end exactly when no outstanding request carries the present epoch, or an outstanding toggle can no longer be accepted, or a failed reload stands in the way |
| `CatalogAuthority.IgnoredImportRun` | src/stores/plugin.ts:529-541 | a run from the start in which an import ends with a refused snapshot and commands run again without any request begun after that end |
| `CatalogProofs.StepInv` | src/stores/plugin.ts:399-541 | every step under an honest backend keeps provenance, the maximum and the agreement with what was delivered |
| `Catalog.PluginStore.constructor` | src/stores/plugin.ts:161-194 | starts in the initial state |
| `Catalog.PluginStore.HasSameGenerationStructure` | src/stores/plugin.ts:384-397 | same ownership, same length, and every listed item known with the same immutable content |
| `Catalog.PluginStore.MergeListed` | src/stores/plugin.ts:444-454 | items confirmed above the snapshot are kept, the others replaced, each with its revision |
| `Catalog.PluginStore.CollectMissing` | src/stores/plugin.ts:456-467 | the unlisted items confirmed above the snapshot, in order |
| `Catalog.PluginStore.MergeSnapshot` | src/stores/plugin.ts:439-478 | the merged, sorted items and their revisions |
| `Catalog.PluginStore.AdoptSnapshot` | src/stores/plugin.ts:399-487 | whether a snapshot is adopted, and the whole new catalog |
| `Catalog.PluginStore.BeginRequest` | src/stores/plugin.ts:543-548 | order, epoch and counters of a load, reload, import or removal |
| `Catalog.PluginStore.ConfirmAuthoritativeSnapshot` | src/stores/plugin.ts:523-541 | adoption decides authority by epoch, count and revision |
| `Catalog.PluginStore.EndRequest` | src/stores/plugin.ts:550-566 | a snapshot answer: confirmation, status, visibility and the counter |
| `Catalog.PluginStore.FailRequest` | src/stores/plugin.ts:554-565 | a failure: superseded, first or later, or an unknown mutation outcome |
| `Catalog.PluginStore.BeginSetEnabled` | src/stores/plugin.ts:885-897 | refused unless shown and toggleable; otherwise owner, epoch and pending mark |
| `Catalog.PluginStore.TryAcceptToggle` | src/stores/plugin.ts:900-921 | accepted exactly if still owner, same generation, not older and same immutable content |
| `Catalog.PluginStore.EndSetEnabled` | src/stores/plugin.ts:898-934 | a toggle answer, with the clean-up that always follows |
| `Catalog.PluginStore.SettleSetEnabled` | src/stores/plugin.ts:927-934 | unconfirmed ends invalidate; only the owner releases the item |
| `Catalog.PluginStore.FailSetEnabled` | src/stores/plugin.ts:922-934 | a failed toggle invalidates; the invariant is kept |
| `Catalog.PluginStore.CommandsAvailable` | src/stores/plugin.ts:196-206 | true only while no request and no toggle is outstanding, by the counters the invariant ties to them |
| `ApiSessionTheorems.InstalledMirrorsRemembered` | src-tauri/src/api/client.rs:143-185 | in every reachable state an installed session equals the remembered one in fingerprint, token and rearm flag, and names the credential in use |
| `ApiSessionTheorems.UnownedAnswerChangesNothing` | src-tauri/src/api/client.rs:484-490 | an answer that does not own the session only retires its request |
| `ApiSessionTheorems.OwnedAnswersWereSignedForTheSession` | src-tauri/src/api/client.rs:345-359 | an owned answer was signed with the credential of the session it speaks for, although signing happens outside the lock |
| `ApiSessionTheorems.OwnershipLastsUntilTheSessionChanges` | src-tauri/src/api/client.rs:484-490 | a request owns the session exactly as long as nothing installs, replaces, clears or rotates it |
| `ApiSessionTheorems.LostOwnershipIsForever` | src-tauri/src/api/client.rs:484-490 | ownership once lost never returns |
| `ApiSessionTheorems.ExpiriesShareATokenIff` | src-tauri/src/api/client.rs:361-401 | two announced expiries carry the same token exactly when between them no owned success came in and no other account or credential was installed |
| `ApiSessionTheorems.RotationFollowsAnAnnouncement` | src-tauri/src/api/client.rs:382-401 | a success replaces the token only if an expiry was announced under it |
| `ApiSessionTheorems.WhichAnswersMatter` | src-tauri/src/api/client.rs:403-481 | which answers expire and which authenticate, both as exact conditions on status, body and code |
| `ApiSession.ApiClient.constructor` | src-tauri/src/api/client.rs:96-113 | starts disconnected |
| `ApiSession.ApiClient.SetCredential` | src-tauri/src/api/client.rs:119-131 | a credential without a session ends the session |
| `ApiSession.ApiClient.SetCredentialForSession` | src-tauri/src/api/client.rs:143-185 | a remembered token and rearm flag are kept for the same fingerprint, else the token is fresh; the owner always is |
| `ApiSession.ApiClient.ClearCredential` | src-tauri/src/api/client.rs:202-207 | the session goes, what is remembered stays |
| `ApiSession.ApiClient.SessionForRequest` | src-tauri/src/api/client.rs:356-359 | the request captures the session installed now |
| `ApiSession.ApiClient.SignHeaders` | src-tauri/src/api/client.rs:345-354 | signing uses the material installed at that moment, or fails |
| `ApiSession.ApiClient.MarkCurrentSessionExpired` | src-tauri/src/api/client.rs:361-380 | only an owned expiry is marked and announced, under its context |
| `ApiSession.ApiClient.ConfirmAuthenticatedPrivateResponse` | src-tauri/src/api/client.rs:382-401 | only an owned success of a rearmed session rotates the token |
| `ApiSession.ApiClient.ParseResponse` | src-tauri/src/api/client.rs:403-481 | the verdict of every branch, its effect on the session, and what is announced |
| `ApiSession.ApiClient.AnswerRequest` | src-tauri/src/api/client.rs:287-303 | an answer to an outstanding request |
| `OrderTheorems.NoDoubleSubmission` | src/stores/order.ts:189-240 | at any time at most one reduce-only and one other intent of an account and epoch are unresolved, if the journal reads the store takes in echo flags and list what it has forgotten |
| `OrderTheorems.UnresolvedStaysPending` | src/stores/order.ts:90-121 | within one account and epoch and without clearing, an intent sent stays pending through refreshes, reconnects, failed queries and late answers until resolved |
| `OrderTheorems.UnresolvedLeavesOnlyWhenForgotten` | src/stores/order.ts:123-148 | a step drops an unresolved intent exactly when it forgets the whole list |
| `OrderTheorems.ClearedOrdersCanDouble` | src/stores/order.ts:320-327 | in every reachable state, after clearing the orders while an intent is unresolved, one of its kind can be sent again exactly when the next journal read lists no blocking entry |
| `OrderTheorems.ClearedOrdersDoubleRun` | src/stores/order.ts:320-327 | a run from the start in which two intents of one kind, account and epoch are unresolved at once |
| `OrderTheorems.MergeFlag` | src/stores/order.ts:105-107 | a journal read keeps every local entry it does not contradict and adds its own |
| `OrderFlags.BusyFlagsAreExact` | src/stores/order.ts:189-277 | while the account can be read, the placing, querying and loading flags are set exactly while one operation of this generation is in flight; placing and querying exclude each other |
| `OrderFlags.LiveOwned` | src/stores/order.ts:71-76 | of the operations in flight in a reachable state, the store owns exactly those begun in its present generation, while the account can be read |
| `OrderFlags.StaleAnswersChangeNothing` | src/stores/order.ts:71-76 | an answer to an operation of an earlier generation only retires it |
| `Orders.OrderStore.constructor` | src/stores/order.ts:43-57 | starts with nothing pending and nothing loaded |
| `Orders.OrderStore.SubmissionBlocked` | src/stores/order.ts:78-88 | when a new order is refused |
| `Orders.OrderStore.RefreshPendingSubmissions` | src/stores/order.ts:90-120 | begins, joins or skips a journal read |
| `Orders.OrderStore.MergeEntries` | src/stores/order.ts:105-107 | the keyed merge of local and journal entries |
| `Orders.OrderStore.AnswerListing` | src/stores/order.ts:98-118 | what a journal read or its failure changes, if still owned |
| `Orders.OrderStore.ResetSubmissionState` | src/stores/order.ts:123-133 | next generation, flags down, list cleared on request |
| `Orders.OrderStore.WatchEnvironment` | src/stores/order.ts:135-142 | a change of the watched values resets; account or epoch also clears |
| `Orders.OrderStore.ClearOrders` | src/stores/order.ts:320-327 | clears and begins a read |
| `Orders.OrderStore.PlaceOrder` | src/stores/order.ts:189-197 | refused while busy; otherwise busy, waiting for a read if needed |
| `Orders.OrderStore.ResumePlaceOrder` | src/stores/order.ts:198-208 | sends and records the intent exactly if permitted, owned, loaded, without error and not blocked |
| `Orders.OrderStore.AnswerPlaceOrder` | src/stores/order.ts:209-236 | receipt, certain rejection, blocked or unknown outcome |
| `Orders.OrderStore.DropPending` | src/stores/order.ts:221-223 | the list without the link |
| `Orders.OrderStore.LeaveUnsettled` | src/stores/order.ts:224-227 | an unknown outcome re-reads the journal before the form is released |
| `Orders.OrderStore.AnswerAcknowledgement` | src/stores/order.ts:175-187 | only an owned acknowledgement resolves |
| `Orders.OrderStore.ReconcileSubmission` | src/stores/order.ts:242-248 | refused while busy or if not pending; otherwise a query |
| `Orders.OrderStore.AnswerReconciliation` | src/stores/order.ts:249-277 | not found, found, rejected, acknowledgement pending or failed |
| `OrderJournal.SentAtMostOnce` | src-tauri/src/services/order_submission.rs:7-117 | no intent is sent to the exchange twice, whatever is retried, lost, torn or crashed |
| `OrderJournal.OneUnsettledOfEachKind` | src-tauri/src/services/order_submission.rs:42-52 | in every scope at most one reduce-only and one other submission are unsettled |
| `OrderJournal.SentStaysListed` | src-tauri/src/storage/order_submissions.rs:88-138 | a listed submission stays listed, with its own request, until certainly refused or acknowledged |
| `OrderJournal.UnsettledIntentBlocks` | src-tauri/src/services/order_submission.rs:42-52 | no second submission of its kind goes out while one is unsettled, even for a caller that has forgotten it |
| `OrderJournal.ReplyTellsWhetherSent` | src-tauri/src/services/order_submission.rs:7-56 | the reply is that of a sent submission exactly if the intent was sent |
| `NotificationTheorems.ShownRecordsBelongFromStart` | src/stores/notification.ts:97-107 | in every run the records shown come only from requests under the account and filter now selected, each id once |
| `NotificationTheorems.MutationOutlivesEarlierReads` | src/stores/notification.ts:142-162 | once a mutation is confirmed, no read sent before it changes list, revision, context or authority, however late its answer |
| `NotificationTheorems.TakenOffStaysOff` | src/stores/notification.ts:579-610 | once a record is removed (or read under the unread filter), no answer to an earlier request brings it back |
| `NotificationTheorems.StepAdvances` | src/stores/notification.ts:175-264 | tickets, epochs and generations never fall, and new reads get new tickets |
| `NotificationTheorems.StepEffect` | src/stores/notification.ts:124-134 | what each step does to the list, and that changing account or filter empties it |
| `NotificationTheorems.LostContextIsForever` | src/stores/notification.ts:97-107 | a context captured at any moment, once it no longer owns the store, never owns it again |
| `NotificationTheorems.AppendedPageContinuesIff` | src/stores/notification.ts:482-527 | while a further page may be appended, the list's cursor is the one it was requested with exactly if the last first page adopted since, if any, left that cursor |
| `NotificationTheorems.LateReloadRun` | src/stores/notification.ts:482-527 | a run from the start, with honest answers, in which a page requested behind one cursor is appended to a list that ends at another |
| `Notifications.NotificationStore.constructor` | src/stores/notification.ts:37-91 | starts inactive and empty |
| `Notifications.NotificationStore.QueryFirstPage` | src/stores/notification.ts:207-231 | a first-page read with a new ticket |
| `Notifications.NotificationStore.RefreshSummary` | src/stores/notification.ts:175-184 | a summary read with a new ticket |
| `Notifications.NotificationStore.LoadMore` | src/stores/notification.ts:482-493 | a further-page read unless there is none or one is loading |
| `Notifications.NotificationStore.AnswerFirstPage` | src/stores/notification.ts:232-263 | an owned first page replaces the list; any other changes only its own bookkeeping |
| `Notifications.NotificationStore.FilterKnown` | src/stores/notification.ts:506-510 | the records whose ids are not shown |
| `Notifications.NotificationStore.AnswerFurtherPage` | src/stores/notification.ts:501-526 | an owned further page is appended without repeats |
| `Notifications.NotificationStore.AnswerSummary` | src/stores/notification.ts:186-204 | an owned summary not overtaken by a page moves the revision |
| `Notifications.NotificationStore.Start` | src/stores/notification.ts:377-383 | next lifecycle |
| `Notifications.NotificationStore.Stop` | src/stores/notification.ts:413-452 | everything is forgotten and every read revoked |
| `Notifications.NotificationStore.SetAccount` | src/stores/notification.ts:454-469 | another account empties the list and reads again |
| `Notifications.NotificationStore.SetFilter` | src/stores/notification.ts:529-538 | another filter empties the list and reads again |
| `Notifications.NotificationStore.Reload` | src/stores/notification.ts:266-272 | revokes further pages and reads the first |
| `Notifications.NotificationStore.FireEventRefresh` | src/stores/notification.ts:280-287 | reads again if both are unchanged |
| `Notifications.NotificationStore.HandleChangedEvent` | src/stores/notification.ts:296-342 | known, continuous and irrelevant, or invalidating |
| `Notifications.NotificationStore.BeginMutation` | src/stores/notification.ts:540-551 | refused exactly while the same is pending, or without an account to clear |
| `Notifications.NotificationStore.InvalidateReadAuthority` | src/stores/notification.ts:142-162 | revokes every read in flight; tells whether a first page was cancelled |
| `Notifications.NotificationStore.ApplyEdit` | src/stores/notification.ts:554-565 | the edited list, reads revoked, a refresh if one was cancelled |
| `Notifications.NotificationStore.ConfirmEdit` | src/stores/notification.ts:552-576 | a removal or reading that succeeded; the result tells exactly whether it was still owned and applied |
| `Notifications.NotificationStore.ApplySweep` | src/stores/notification.ts:612-623 | every read revoked, the list cleared on request, and a fresh read begun |
| `Notifications.NotificationStore.ConfirmSweep` | src/stores/notification.ts:625-691 | a change of the whole list that succeeded; the result tells exactly whether it was still owned |
| `Notifications.NotificationStore.FailMutation` | src/stores/notification.ts:600-609 | a failure only releases |
| `DecimalText.ParseIsUnique` | src/services/pluginStrategyService.ts:66-66 | a string matches the pattern exactly when it is the printing of a numeral, and of only one |
| `DecimalModel.CompareIsExact` | src/services/pluginStrategyService.ts:188-196 | comparing magnitudes and then padded digits gives the sign of the exact difference of the two values |
| `Decimal.ReadDecimal` | src/services/pluginStrategyService.ts:161-186 | the validator's cuts, zero stripping, trimming loop and bounds |
| `Decimal.Cut` | src/services/pluginStrategyService.ts:164-171 | digits and scale of a matching string |
| `Decimal.TrimmedKeepsValue` | src/services/pluginStrategyService.ts:174-177 | trimming keeps the value and leaves no trailing zero in a fraction |
| `Decimal.MaxIsExact` | src/services/pluginStrategyService.ts:67-70 | the bound is 2^96-1 |
| `Decimal.AcceptedExactly` | src/services/pluginStrategyService.ts:161-186 | accepted are exactly the matching strings of at most 64 characters that denote a number up to 2^96-1 with at most 28 decimals (positive where asked); the form kept has that value |
| `Decimal.ComparisonOfAccepted` | src/services/pluginStrategyService.ts:188-196 | comparing two accepted strings gives the sign of the exact difference of the numbers they denote |
| `Decimal.LongZeroIsRefused` | src/services/pluginStrategyService.ts:181-181 | a zero written with more than 28 decimals is refused although its value is in range |
| `StrategyRun.ParsePolicy` | src/services/pluginStrategyService.ts:198-218 | which policies are accepted |
| `StrategyRun.ParseRunView` | src/services/pluginStrategyService.ts:336-347 | the bounds and the comparison with the previous view that an accepted run view passes |
| `StrategyRun.PolicyAcceptedExactly` | src/services/pluginStrategyService.ts:198-218 | accepted exactly when the limits are in range and 0 < order <= total <= 2^96-1 holds of the exact numbers |
| `StrategyRun.ViewIsBounded` | src/services/pluginStrategyService.ts:345-347 | an accepted submitted total lies between 0 and the policy's total, exactly |
| `StrategyRun.HistoryIsMonotone` | src/services/pluginStrategyService.ts:394-404 | over any history of accepted views the total never falls nor exceeds its limit, counts never fall, and run, start, expiry and duration stay |
| `KlineSeries.SortByTime` | src/stores/market.ts:145-145 | the one strictly increasing list of the filed bars |
| `KlineSeries.SortedListsAll` | src/stores/market.ts:145-145 | the sorted list holds exactly the filed bars, strictly increasing |
| `GapFill.NormalizeKlines` | src/stores/market.ts:131-175 | the loops compute filtering, deduplication, sorting and filling |
| `GapFill.FillGaps` | src/stores/market.ts:151-174 | the nested loops compute the filled list |
| `GapFill.InsertBars` | src/stores/market.ts:155-170 | the inner loop computes the flat bars of a gap, for any limit |
| `GapFill.StretchBars` | src/stores/market.ts:155-170 | a stretch is the real bar, at most 500 flat bars one step apart, and the next real bar; with fewer than 500 it reaches the next bar |
| `GapFill.NormalizedHolds` | src/stores/market.ts:131-175 | the output is strictly increasing, contains the deduplicated sorted input as a subsequence, every other bar is flat with no volume at the previous real close, and every step is within the interval unless it follows the 500th inserted bar |
| `GapFill.FillGapsIff` | src/stores/market.ts:152-173 | the output has no step above the interval exactly when no gap exceeds 501 intervals |
| `GapFill.NormalizedTwiceIff` | src/stores/market.ts:131-175 | normalising twice is normalising once exactly when no gap exceeds 501 intervals |
| `KlineMerge.MergeKlinesByOpenTime` | src/utils/chartWorkspace.ts:125-137 | the loops compute the merge |
| `KlineMerge.MergeHolds` | src/utils/chartWorkspace.ts:125-137 | the result holds the last version given for each of the latest 10000 open times, strictly increasing |
| `KlineMerge.MergeIsIncremental` | src/utils/chartWorkspace.ts:125-137 | merging some groups and then more equals merging all at once, for any groups, despite the cut |
| `CanonicalJson.CanonicalIff` | src/utils/chartWorkspace.ts:90-105 | two JSON values have the same canonical form exactly when they are equal but for the order of keys |
| `CanonicalJson.CanonicalIsSame` | src/utils/chartWorkspace.ts:94-105 | the canonical form is the value itself but for the order of keys |
| `CanonicalJson.CanonicalTwice` | src/utils/chartWorkspace.ts:94-105 | taking the canonical form twice is taking it once |
| `ContextSwitch.OneCallAtATime` | src/stores/market.ts:177-238 | at most one transition runs, so at most one backend call is outstanding; they settle in order |
| `ContextSwitch.LatestWins` | src/stores/market.ts:177-238 | when all have settled and the latest did not fail, the key shown, the backend context recorded and the key last requested agree |
| `ContextSwitch.BackendIsAheadIff` | src/stores/market.ts:223-228 | in every run the backend context differs from the shown key exactly when a superseded call for a key not shown has succeeded, and since then no call succeeded and no transition asked for the backend's own context |
| `ContextSwitch.FailureLeavesBackendAhead` | src/stores/market.ts:210-221 | a run in which the latest transition fails after a superseded call succeeded: shown and backend stay apart |
| `ContextSwitch.MarketStore.constructor` | src/stores/market.ts:26-42 | starts with no backend context recorded |
| `ContextSwitch.MarketStore.SetChartContext` | src/stores/market.ts:177-180 | a transition is queued behind the others |
| `ContextSwitch.MarketStore.BeginTransition` | src/stores/market.ts:181-199 | superseded, already there, or on to the flush |
| `ContextSwitch.MarketStore.AfterFlush` | src/stores/market.ts:206-208 | superseded, or on to the backend call |
| `ContextSwitch.MarketStore.AfterCall` | src/stores/market.ts:210-235 | what an answer or failure of the backend changes |
| `SemVer.SemVerIff` | src/services/pluginService.ts:347-369 | a string is recognised exactly when it is the printing of a valid version, and of only one |
| `SemVer.PrintReads` | src/services/pluginService.ts:347-369 | a printed valid version is recognised and reads as itself |
| `SemVer.ReadReprints` | src/services/pluginService.ts:347-369 | a recognised string is the printing of the version it reads as |
| `SemVer.JoinIdentifiers` | src/services/pluginService.ts:338-345 | joined valid identifiers are valid and split into themselves |
| `SemVer.CoreNumberLength` | src/services/pluginService.ts:364-368 | the length check on core numbers follows from the 64-bit bound |
| `Splitting.JoinSplit` | src/services/pluginService.ts:338-345 | joining what was split gives the string back |
| `Splitting.SplitJoin` | src/services/pluginService.ts:338-345 | splitting what was joined gives the parts back |
| `ManifestDiff.SameContentIff` | src/services/pluginManifestDiff.ts:109-155 | if no id is shared by different commands, content is called the same exactly when the manifests are equal, and exactly when the import check matches them |
| `ManifestDiff.CommandEqualIsEquality` | src/services/pluginManifestDiff.ts:36-81 | field-by-field comparison of commands is equality |
| `ManifestDiff.UniqueIdsSuffice` | src/services/pluginService.ts:577-579 | the unique ids that the parser demands are a case of that condition |
| `ManifestDiff.ComparisonDecidesEqualityIff` | src/services/pluginManifestDiff.ts:109-155 | the comparison with a manifest decides equality for every incoming one exactly if no id is shared by different commands of it |
| `ManifestDiff.DiffIsComplete` | src/services/pluginManifestDiff.ts:126-132 | removing, adding and replacing what the diff lists turns the current commands into the incoming ones |

## Left out

- Network, storage, timers, toasts, error texts, status messages and the contents of orders, views and notifications
  beyond what decides a branch.
- Autosave: the interval timer, failure reports, and capture sources that call back into the service while being read.
- Autosave drain: the bound is for a store whose disk neither fails nor is unreadable, and for a client that is quiet
  meanwhile; all other autosave theorems hold under any answers, and durability under any honest ones.
- Catalog: the import and removal dialogs, which only restrict when an import or removal can begin, and the parts of
  command availability that wait for those dialogs to close; item ids are ranks in the sort order, and a lookup by id
  relies on the snapshot parser's strictly increasing ids.
- Catalog requests: a load or reload joined by a second caller; the model lets any number be outstanding.
- Catalog confluence: an item is not toggled again while a toggle of it is outstanding in the same generation, since the
  store drops the earlier answer on purpose.
- API session: base URL handling, request signing itself, the retry after a clock or signature error (a second request),
  and the observer's own notification.
- Order store: open orders and history, which no guard reads; link ids given by a caller are taken to be fresh.
- Order journal: the file layout; a write either succeeds, leaves nothing, or leaves a damaged record.
- Notification list: unread counts, settings and toasts; a scheduled refresh may fire more than once.
- GapFill: the conversion of an interval name to a positive number of milliseconds, and open times that are not finite.
- Context switch: ticker and depth, and the normalisation of keys.
- StrategyRun.ParseRunView: does not check receipts, capabilities, texts and the identities a caller may expect of a run
  view, because these are settled field by field.
- SemVer: precedence between versions, which the original does not compute.
- ManifestDiff: parsing; numbers of parameters are reals, and equal JSON texts of lists mean equal lists.
- CanonicalJson: the conversion of a JavaScript value to JSON, the printing of the canonical form, and the place that
  JavaScript gives to keys that look like integers.
- The chart adapter, wire validators and API field mapping: long but settled branch by
  branch, or dominated by foreign calls.
