# ARCU front-end core, modelled in Dafny

This project models the stateful core of the ARCU Angular application and proves
properties of that model:

- **The error-monitoring service** (`ErrorClassify`, `ErrorMonitoring`). It covers:
  - the configuration merged over its defaults;
  - how a thrown value becomes an `ErrorData` record (message, stack, type name, severity, fingerprint, user, session, tags);
  - the in-memory queue, which is flushed when it reaches the batch size and on every tick of the periodic interval;
  - the immediate send of critical records;
  - delivery to the custom HTTP endpoint, with exponential-backoff retries;
  - the interval timer's lifecycle (`initialize`, `startPeriodicFlush`, `destroy`);
  - the storage-backed user context and tags.

  The service's state is the value `Monitor`, and every operation is a step function on it. The class `ErrorMonitorService` holds the same fields and implements each operation imperatively, proved equal to its step function. The properties are proved as lemmas on the step functions: what a report does, the invariant (one live interval, a queue shorter than a batch), flush draining in order, the retry chain and idempotent destroy.
- **The small services**:
  - `LoadingService` (`Loading`): a request counter that never goes below zero;
  - `StateService` (`StateStore`): a key-value store;
  - `AssessmentStateService` (`AssessmentState`) and `AuthService` (`Auth`): signal holders;
  - `EmailService` (`Email`): address validation, decided exactly as the regular expression `^[^@\s]+@[^@\s]+\.[^@\s]+$` decides it, and the simulated send.
- **The components**:
  - the chip list (`ChipList`): add, remove and select a chip, the autocomplete filter, and the keydown guard;
  - the deployment editor (`Deployments`): the filtered view, the next number, edit, save and add;
  - the instructions text (`Instructions`): splitting at newlines and unescaped commas, then trimming;
  - the fly-out menu (`FlyMenu`): open/close, the drag guard, and the choice of flip direction;
  - the floating menu (`FloatingMenu`).

Each component whose fields change in place is a `class` whose methods state their whole new state. Where the source promises something across several calls, a method builds a fresh object, drives it through those calls, and proves the promised outcome.

The browser, the clock, randomness, JSON and HTTP are parameters of the model:
- `Ambient` carries the timestamp, the URL, the user agent, the random session suffix, and whether storage throws;
- `Setup.transport` says whether the n-th POST succeeds;
- `Setup.stringify` and `Setup.parse` stand for JSON;
- `Layout` says which menu directions overflow the viewport.

Shared helpers:
- `Text` models JavaScript's `\s` class, `trim`, `toLowerCase` on ASCII, and `includes`;
- `Seqs` models `filter` and `indexOf`;
- `Wrappers` holds `Option`.

Where the code and the written description of the system differ, the model follows the code:
- The periodic flush interval is always started, even for a `flushInterval` of 0.
- `reportError("")` produces the message `""`. Only an empty primitive string does this (`ErrorClassify.Message`).
- A primitive string error gets the type name `String`, because it has a constructor. It is not the `Unknown` sentinel.
- Only `error.error.message` and `error.error.stack` are read from a nested error. No other field is.
- There is no stopped state. After `destroy`, `reportError` still queues, and `initialize` is a no-op because `isInitialized` stays true.
- A critical record is dispatched at once and also stays in the queue, so it is dispatched again at the next flush.
- When storage throws while a record is being built, `reportError` only warns. The record is dropped rather than reported without the stored context.
- Both menus start closed. The fly menu starts with the active direction `right`. This is because the fields are initialised from the input defaults before the inputs are bound.

## Model

| member | source | states |
|---|---|---|
| ErrorMonitoring.MergeConfig | src/app/core/error-monitoring.service.ts:55-62 | every supplied field wins over its default (remote on, console on outside production, 3 retries, batch 10, 30000 ms, no endpoint) |
| ErrorMonitoring.MergeConfigDefaults | src/app/core/error-monitoring.service.ts:55-62 | no overrides gives exactly the defaults; a configuration supplying every flag does not depend on the build |
| ErrorMonitoring.EnvironmentConfigWellFormed | src/environments/error-monitoring.config.ts:7-27 | the shipped configuration has retries ≥ 0 and batch ≥ 1, logs remotely and has an endpoint exactly in production, and logs to the console exactly outside it |
| ErrorMonitoring.CurrentUserId | src/app/core/error-monitoring.service.ts:363-367 | the first non-empty of the two stored user ids, else `anonymous`; never empty |
| ErrorMonitoring.SessionOf | src/app/core/error-monitoring.service.ts:369-376 | returns the stored non-empty session id unchanged, otherwise creates `session_…`; either way the store then holds the returned id |
| ErrorMonitoring.SessionStable | src/app/core/error-monitoring.service.ts:369-376 | once an id is created, later calls return it and leave the store alone, whatever the random suffix |
| ErrorMonitoring.CurrentTags | src/app/core/error-monitoring.service.ts:382-389 | absent, empty or unparsable stored tags read as `{}` |
| ErrorClassify.Message | src/app/core/error-monitoring.service.ts:350-355 | own message, then nested message, then the string itself, then the sentinel; empty only for the empty string |
| ErrorClassify.Stack | src/app/core/error-monitoring.service.ts:357-361 | own stack, then nested stack, else the sentinel; never empty |
| ErrorClassify.ErrorType | src/app/core/error-monitoring.service.ts:218 | the constructor name if truthy, `String` for a primitive string, `Unknown` for null/undefined or an unnamed constructor; never empty |
| ErrorClassify.StringErrorTyped | src/app/core/error-monitoring.service.ts:218 | a thrown primitive string is typed `String`, never the `Unknown` sentinel |
| ErrorClassify.SeverityRules | src/app/core/error-monitoring.service.ts:391-407 | each severity holds exactly when its keywords occur in the lower-cased message and no earlier rule's keywords do |
| ErrorClassify.AnyCaseKeywordWarns | src/app/core/error-monitoring.service.ts:391-395 | `network` or `timeout` anywhere in the message, in any ASCII capitalisation, makes the error a warning |
| ErrorClassify.CriticalWithoutKeyword | src/app/core/error-monitoring.service.ts:391-407 | a message whose lower-cased form holds none of the five keywords is critical |
| ErrorClassify.NoKeywordWhenLacking | src/app/core/error-monitoring.service.ts:391-407 | a message lacking, in both cases, one letter of each keyword holds none of the keywords once lower-cased |
| ErrorClassify.NullishIsCritical | src/app/core/error-monitoring.service.ts:350-355 | null/undefined are reported with `Unknown error occurred` and graded critical |
| ErrorClassify.ApiTestErrorIsCritical | src/app/core/error-monitoring.service.spec.ts:221-242 | `new Error("API test error")` is graded critical |
| ErrorClassify.Sanitize | src/app/core/error-monitoring.service.ts:412 | same length; each character kept if in `[A-Za-z0-9_-]`, else `_` |
| ErrorClassify.SanitizeChars | src/app/core/error-monitoring.service.ts:412 | the result uses only `[A-Za-z0-9_-]` |
| ErrorClassify.SanitizeClosed | src/app/core/error-monitoring.service.ts:412 | sanitising is idempotent, and already clean text is unchanged |
| ErrorClassify.SanitizeAppend | src/app/core/error-monitoring.service.ts:412 | the replacement works character by character: it distributes over concatenation |
| ErrorClassify.FingerprintOfShape | src/app/core/error-monitoring.service.ts:409-413 | for any type name and message, the fingerprint has the length of `type-message`, is the sanitised type, `-`, and the sanitised message, and uses only `[A-Za-z0-9_-]` |
| ErrorClassify.FingerprintShape | src/app/core/error-monitoring.service.ts:409-413 | the fingerprint is the sanitised type, `-`, and the sanitised message, and uses only `[A-Za-z0-9_-]` |
| ErrorClassify.FingerprintGroups | src/app/core/error-monitoring.service.ts:409-413 | errors with equal type name and message share a fingerprint |
| ErrorClassify.SentryLevel | src/app/core/error-monitoring.service.ts:415-423 | a severity's level is one of `info`, `warning`, `error`, `fatal`; it is `fatal` exactly for a critical severity |
| ErrorClassify.SentryLevelOfSeverity | src/app/core/error-monitoring.service.ts:415-423 | every severity keeps its name as level, except critical, which becomes fatal |
| ErrorMonitoring.AttemptedExtends | src/app/core/error-monitoring.service.ts:249-269 | one send attempt changes only the delivery logs and keeps the earlier POSTs as a prefix |
| ErrorMonitoring.DispatchedAllInOrder | src/app/core/error-monitoring.service.ts:342-344 | `forEach(sendErrorData)` hands every record to delivery exactly once, in order, touching nothing but the delivery logs |
| ErrorMonitoring.DispatchedAllSilent | src/app/core/error-monitoring.service.ts:231-237 | with remote logging off or no endpoint, dispatching makes no POST, schedules no retry and warns nothing |
| ErrorMonitoring.FlushedDrains | src/app/core/error-monitoring.service.ts:336-345 | an empty queue is left alone; otherwise the queue ends empty and its former contents are dispatched in order |
| ErrorMonitoring.EnqueuedEffect | src/app/core/error-monitoring.service.ts:138-155 | the record is echoed if console logging is on, and queued; it is dispatched at once when critical; the queue is flushed to empty when it reaches the batch size |
| ErrorMonitoring.ReportedEffect | src/app/core/error-monitoring.service.ts:136-160 | a storage failure only adds a warning; otherwise the prepared record is enqueued as above, and the session store may gain the new id |
| ErrorMonitoring.CriticalPostedAtOnce | src/app/core/error-monitoring.service.ts:148-150 | with remote logging and an endpoint, a critical record's first POST (attempt 0) is issued during `reportError` |
| ErrorMonitoring.EnqueuedSilent | src/app/core/error-monitoring.service.ts:231-237 | with remote logging off or no endpoint, enqueueing never POSTs nor schedules a retry |
| ErrorMonitoring.ReportedSilentWhenRemoteOff | src/app/core/error-monitoring.service.ts:231-237 | with remote logging off or no endpoint, `reportError` never POSTs nor schedules a retry |
| ErrorMonitoring.CreatedInv | src/app/core/error-monitoring.service.ts:51-92 | a new service is initialised with one armed interval and an empty queue |
| ErrorMonitoring.TimerStartedInv | src/app/core/error-monitoring.service.ts:123-131 | re-arming clears the prior interval first: exactly one, fresh, interval is live |
| ErrorMonitoring.ReportedInv | src/app/core/error-monitoring.service.ts:153-155 | reporting keeps the invariant; with a batch size ≥ 1 the queue stays shorter than a batch |
| ErrorMonitoring.TickedInv | src/app/core/error-monitoring.service.ts:128-130 | an interval tick keeps the invariant |
| ErrorMonitoring.RetryFiredInv | src/app/core/error-monitoring.service.ts:261-265 | a retry timer firing keeps the invariant |
| ErrorMonitoring.FlushedInv | src/app/core/error-monitoring.service.ts:336-345 | a flush keeps the invariant |
| ErrorMonitoring.DestroyedIdempotent | src/app/core/error-monitoring.service.ts:428-436 | destroy leaves no interval and an empty queue after dispatching what was queued; a second destroy changes nothing |
| ErrorMonitoring.FailedPosts | src/app/core/error-monitoring.service.ts:258-267 | the k-th failed attempt carries retry count k and waits 2^(k-1) s (attempt 0 waits 0) |
| ErrorMonitoring.FirstAttemptFails | src/app/core/error-monitoring.service.ts:252-267 | a failing first POST starts the failed chain: one failed attempt recorded and warned, the first retry scheduled when any are allowed |
| ErrorMonitoring.RetryAfterFailures | src/app/core/error-monitoring.service.ts:258-267 | while retries remain, firing the scheduled retry adds one failed attempt and schedules the next |
| ErrorMonitoring.FireChain | src/app/core/error-monitoring.service.ts:261-265 | states each of which becomes the next when its latest retry fires are walked through by as many firings |
| ErrorMonitoring.FailureChain | src/app/core/error-monitoring.service.ts:258-267 | firing k retries in a row extends the failed chain by k attempts |
| ErrorMonitoring.FailedChainShape | src/app/core/error-monitoring.service.ts:258-267 | after maxRetries+1 failed attempts nothing stays scheduled, and attempt k is recorded with retry count k and wait 2^(k-1) s, and the warnings gained are exactly maxRetries+1 send failures |
| ErrorMonitoring.AllAttemptsFail | src/app/core/error-monitoring.service.ts:249-269 | when every POST fails, exactly maxRetries+1 attempts numbered 0..maxRetries are made with waits 0, 1 s, 2 s, 4 s…; the warnings gained are exactly one send failure per attempt, and none stays scheduled |
| ErrorMonitoring.FirstAttemptSucceeds | src/app/core/error-monitoring.service.ts:252-257 | a successful first POST is the only one: no warning, no retry |
| ErrorMonitoring.TotalWait | src/app/core/error-monitoring.service.ts:265 | the waits before retries 1..n add up to (2^n − 1) seconds |
| ErrorMonitoring.UserContextReachesRecord | src/app/core/error-monitoring.service.ts:165-171 | after `setUserContext(id)` the next record carries `id`, even when storing the user info then fails; without user info, or when storing it fails, the stored info is left as it was |
| ErrorMonitoring.TagsReachRecord | src/app/core/error-monitoring.service.ts:191-194 | stored tags come back on the next record whenever JSON round-trips them |
| ErrorMonitoring.CriticalErrorPostedImmediately | src/app/core/error-monitoring.service.spec.ts:221-242 | with the test configuration, a fresh service reporting `new Error("API test error")` builds a critical record of type `Error`, POSTs it to the endpoint during the call and keeps it queued |
| ErrorMonitoring.ErrorMonitorService.constructor | src/app/core/error-monitoring.service.ts:51-65 | the configuration is merged over the defaults, and the service is initialised and satisfies its invariant |
| ErrorMonitoring.ErrorMonitorService.Initialize | src/app/core/error-monitoring.service.ts:70-92 | runs once: arms the periodic flush and sets the initialised flag; keeps the invariant |
| ErrorMonitoring.ErrorMonitorService.StartPeriodicFlush | src/app/core/error-monitoring.service.ts:123-131 | clears the live interval, then arms one new interval; keeps the invariant |
| ErrorMonitoring.ErrorMonitorService.GetSessionId | src/app/core/error-monitoring.service.ts:369-376 | the returned id and new session store are those of `SessionOf`; nothing else changes |
| ErrorMonitoring.ErrorMonitorService.PrepareErrorData | src/app/core/error-monitoring.service.ts:208-226 | the returned record is `RecordFor` of the prior state; only the session store may change |
| ErrorMonitoring.ErrorMonitorService.ReportError | src/app/core/error-monitoring.service.ts:136-160 | the new state is `Reported` of the old one; keeps the invariant |
| ErrorMonitoring.ErrorMonitorService.EnqueueErrorData | src/app/core/error-monitoring.service.ts:142-155 | the new state is `Enqueued` of the old one: echoed, queued, sent at once when critical, flushed when the batch is full |
| ErrorMonitoring.ErrorMonitorService.SetUserContext | src/app/core/error-monitoring.service.ts:165-186 | stores the id, then the JSON of the info only when supplied; a failure of the first write only warns; a failure of the second keeps the stored id and warns |
| ErrorMonitoring.ErrorMonitorService.SetTags | src/app/core/error-monitoring.service.ts:191-203 | stores the JSON of the tags; a storage failure only warns |
| ErrorMonitoring.ErrorMonitorService.SendErrorData | src/app/core/error-monitoring.service.ts:231-244 | logs the dispatch; POSTs only with remote logging on and an endpoint set |
| ErrorMonitoring.ErrorMonitorService.SendToCustomApi | src/app/core/error-monitoring.service.ts:249-269 | one POST; on failure a warning, and a retry with count+1 after 2^count s while retries remain |
| ErrorMonitoring.ErrorMonitorService.FlushErrorQueue | src/app/core/error-monitoring.service.ts:336-345 | the new state is `Flushed` of the old one (the loop dispatches the copied queue in order) |
| ErrorMonitoring.ErrorMonitorService.IntervalFired | src/app/core/error-monitoring.service.ts:128-130 | a tick of a live interval flushes; a cleared one does nothing; keeps the invariant |
| ErrorMonitoring.ErrorMonitorService.RetryTimerFired | src/app/core/error-monitoring.service.ts:261-265 | the fired retry is removed from the pending ones and attempted; keeps the invariant |
| ErrorMonitoring.ErrorMonitorService.Destroy | src/app/core/error-monitoring.service.ts:428-436 | clears and forgets the interval, then flushes; keeps the invariant |
| Text.Trim | src/app/shared/instructions/instructions.component.ts:20 | `trim`: never longer than its input, and neither end of the result is whitespace |
| Text.TrimSpec | src/app/shared/instructions/instructions.component.ts:20 | `trim` removes only whitespace, all of it at the two ends: the result is the infix after the leading whitespace, followed by whitespace only; empty exactly for all-whitespace input |
| Text.TrimInfix | src/app/shared/instructions/instructions.component.ts:20 | the trimmed text is the infix of the input right after its leading whitespace, which ends with a whitespace character when not empty |
| Text.Lower | src/app/core/error-monitoring.service.ts:392 | same length, each character lower-cased |
| Text.Includes | src/app/core/error-monitoring.service.ts:394-404 | `includes` holds exactly when the needle occurs at some index |
| Seqs.Filter | src/app/features/assessment/deployment/deployment.component.ts:96 | the kept elements are a subsequence of the input, each satisfies the test, each passing element keeps its multiplicity and each failing one is dropped |
| Seqs.FilterAppend | src/app/features/assessment/deployment/deployment.component.ts:96 | filtering distributes over concatenation |
| Seqs.IndexOf | src/app/shared/chip-list/chip-list.component.ts:56 | −1 exactly when absent, else the first index holding the element |
| Seqs.SpliceMultiset | src/app/shared/chip-list/chip-list.component.ts:58 | `splice(i, 1)` removes exactly one copy of the i-th element |
| Seqs.DistinctSplice | src/app/shared/chip-list/chip-list.component.ts:58 | splicing keeps a duplicate-free list duplicate-free and removes the element |
| Seqs.DistinctPush | src/app/shared/chip-list/chip-list.component.ts:47 | pushing an absent element keeps a list duplicate-free |
| ChipList.KeydownPrevented | src/app/shared/chip-list/chip-list.component.ts:78-86 | a key is blocked exactly when free-form entry is off and it is none of the seven navigation/editing keys |
| ChipList.Unselected | src/app/shared/chip-list/chip-list.component.ts:89-90 | the options not selected, in order, each with its multiplicity |
| ChipList.Matching | src/app/shared/chip-list/chip-list.component.ts:92-95 | the unselected options whose lower-case form contains the query, in order, each with its multiplicity |
| ChipList.Suggestions | src/app/shared/chip-list/chip-list.component.ts:88-96 | a blank query suggests every unselected option; any other query narrows them by lower-case containment |
| ChipList.BlankSuggestsAll | src/app/shared/chip-list/chip-list.component.ts:88-90 | with nothing selected, a blank query suggests all options |
| ChipList.TrimmedValue | src/app/shared/chip-list/chip-list.component.ts:43 | `value?.trim()`: present exactly when the value is, and then the value with its surrounding whitespace removed |
| ChipList.DistinctPushIf | src/app/shared/chip-list/chip-list.component.ts:44-48 | pushing a chip that is not yet selected keeps the list duplicate-free |
| ChipList.SharedChipListComponent.constructor | src/app/shared/chip-list/chip-list.component.ts:27-40 | inputs bound, empty control and input, nothing emitted |
| ChipList.SharedChipListComponent.AddChip | src/app/shared/chip-list/chip-list.component.ts:41-53 | the trimmed value is appended and emitted exactly when non-empty, new, and allowed (free-form or offered); an emission happens exactly when the list changes; no duplicates appear; input and control are cleared |
| ChipList.SharedChipListComponent.RemoveChip | src/app/shared/chip-list/chip-list.component.ts:55-61 | the first copy of the chip is removed and emitted; an absent chip changes nothing; the multiset loses exactly one copy |
| ChipList.SharedChipListComponent.SelectOption | src/app/shared/chip-list/chip-list.component.ts:63-70 | a truthy new option is appended and emitted without the free-form check; the control is cleared |
| Deployments.FilteredDeployments | src/app/features/assessment/deployment/deployment.component.ts:95-97 | exactly the records of the assessment, in list order, with their multiplicities |
| Deployments.NextNumber | src/app/features/assessment/deployment/deployment.component.ts:100 | 1 for an empty list, else the largest number plus one; above every existing number |
| Deployments.AddKeepsNumbersDistinct | src/app/features/assessment/deployment/deployment.component.ts:99-111 | adding keeps deployment numbers distinct |
| Deployments.FindRecord | src/app/features/assessment/deployment/deployment.component.ts:80-82 | the first record of the assessment with the number, or −1 when there is none |
| Deployments.FilteredRecordFound | src/app/features/assessment/deployment/deployment.component.ts:77-86 | a record of the filtered view is always found by the save search |
| Deployments.AddedIsLastFiltered | src/app/features/assessment/deployment/deployment.component.ts:111-113 | the appended record is the last of the filtered view, which grows by one |
| Deployments.AssessmentDeploymentComponent.constructor | src/app/features/assessment/deployment/deployment.component.ts:36-70 | the three sample records with distinct numbers, and no edit in progress |
| Deployments.AssessmentDeploymentComponent.StartEdit | src/app/features/assessment/deployment/deployment.component.ts:72-75 | holds the index and a copy of the record; the list is unchanged |
| Deployments.AssessmentDeploymentComponent.CancelEdit | src/app/features/assessment/deployment/deployment.component.ts:90-93 | clears the edit; the list is unchanged |
| Deployments.AssessmentDeploymentComponent.SaveEdit | src/app/features/assessment/deployment/deployment.component.ts:77-88 | throws exactly when an edit is held and the non-empty view has no such index (nothing changes then); otherwise overwrites the matched record and clears the edit |
| Deployments.AssessmentDeploymentComponent.AddDeployment | src/app/features/assessment/deployment/deployment.component.ts:99-115 | appends an `Initial`/`Active` record numbered above all others, opens it as the last filtered row, and keeps numbers distinct |
| Instructions.PiecesFrom | src/app/shared/instructions/instructions.component.ts:20 | one more piece than there are separators |
| Instructions.Split | src/app/shared/instructions/instructions.component.ts:20 | one more piece than there are separators |
| Instructions.SplitJoin | src/app/shared/instructions/instructions.component.ts:20 | the pieces glued with the separators give back the text |
| Instructions.SplitPiecesClean | src/app/shared/instructions/instructions.component.ts:20 | no piece holds a newline or an unescaped comma |
| Instructions.TrimKeepsNoSeparator | src/app/shared/instructions/instructions.component.ts:20 | trimming a piece cannot expose an unescaped comma |
| Instructions.CleanPieces | src/app/shared/instructions/instructions.component.ts:20 | every kept piece is non-empty and neither starts nor ends with whitespace |
| Instructions.CleanPiecesFilter | src/app/shared/instructions/instructions.component.ts:20 | dropping the empty trimmed pieces is `filter(Boolean)` after `map(trim)`: every non-empty trimmed piece is kept, in order, with its multiplicity, and nothing else |
| Instructions.Paragraphs | src/app/shared/instructions/instructions.component.ts:14-23 | an array is returned as it is; a string gives its split pieces trimmed, with the empty ones filtered out; any other value gives no paragraphs |
| Instructions.ParagraphsClean | src/app/shared/instructions/instructions.component.ts:18-21 | paragraphs of a string are non-empty, trimmed, free of newlines and of unescaped commas |
| Instructions.BlankTextHasNoParagraphs | src/app/shared/instructions/instructions.component.ts:18-21 | empty or whitespace-only text yields no paragraphs |
| Email.ValidateEmail | src/app/core/email.service.ts:32-35 | true exactly for strings the pattern accepts: a non-empty local part, one `@`, a domain with an inner `.`, no whitespace |
| Email.AddressAt | src/app/core/email.service.ts:34 | the pattern holds exactly when it holds split at the first `@` |
| Email.AddressShape | src/app/core/email.service.ts:34 | an accepted address has exactly one `@` and no whitespace |
| Email.ExampleAddresses | src/app/core/email.service.ts:64 | `test@example.com` is accepted, `user@localhost` is not |
| Email.SendEmail | src/app/core/email.service.ts:19-25 | fails with `Invalid recipient email address` exactly when the recipient is not an address, else succeeds with the simulated message |
| FlyMenu.Opposite | src/app/shared/fly-menu/fly-menu.component.ts:165-171 | the opposite direction differs and lies on the same axis |
| FlyMenu.OppositeInvolution | src/app/shared/fly-menu/fly-menu.component.ts:165-171 | taking the opposite twice gives the direction back |
| FlyMenu.ChooseDirection | src/app/shared/fly-menu/fly-menu.component.ts:159-186 | the default direction or its opposite; the opposite exactly when the default overflows and the opposite does not |
| FlyMenu.FlyMenuComponent.constructor | src/app/shared/fly-menu/fly-menu.component.ts:48-57 | closed, not dragging, direction `right`, nothing adjusted, no listener |
| FlyMenu.FlyMenuComponent.AfterViewInit | src/app/shared/fly-menu/fly-menu.component.ts:62-70 | registers the outside-click listener; nothing else changes |
| FlyMenu.FlyMenuComponent.OnDestroy | src/app/shared/fly-menu/fly-menu.component.ts:72-74 | removes the listener; nothing else changes |
| FlyMenu.FlyMenuComponent.AdjustDirection | src/app/shared/fly-menu/fly-menu.component.ts:141-187 | the active direction becomes the chosen one; a missing items element changes nothing |
| FlyMenu.FlyMenuComponent.ToggleMenu | src/app/shared/fly-menu/fly-menu.component.ts:76-88 | ignored right after a drag; otherwise flips open, choosing the direction on opening and forgetting the choice on closing |
| FlyMenu.FlyMenuComponent.OnDragStarted | src/app/shared/fly-menu/fly-menu.component.ts:90-93 | marks a drag start and dragging |
| FlyMenu.FlyMenuComponent.OnDragEnd | src/app/shared/fly-menu/fly-menu.component.ts:95-97 | stops dragging and schedules one reset of the drag-start flag |
| FlyMenu.FlyMenuComponent.DragResetElapsed | src/app/shared/fly-menu/fly-menu.component.ts:97 | a scheduled reset clears the drag-start flag |
| FlyMenu.FlyMenuComponent.DocumentMouseDown | src/app/shared/fly-menu/fly-menu.component.ts:64-69 | with the listener registered, a click outside closes the menu and forgets the direction choice |
| FlyMenu.FlyMenuComponent.OnMenuItemClick | src/app/shared/fly-menu/fly-menu.component.ts:189-193 | runs the item's action if any, then closes |
| FlyMenu.ReopenChoosesAgain | src/app/shared/fly-menu/fly-menu.component.ts:76-88 | opening and closing a fresh menu leaves it closed with the chosen direction; reopening chooses the same direction |
| FloatingMenu.FloatingMenuComponent.constructor | src/app/shared/floating-menu/floating-menu.component.ts:16-31 | no items, closed, not spinning, no listener |
| FloatingMenu.FloatingMenuComponent.SetItems | src/app/shared/floating-menu/floating-menu.component.ts:17 | a null or undefined value becomes the empty list |
| FloatingMenu.FloatingMenuComponent.AfterViewInit | src/app/shared/floating-menu/floating-menu.component.ts:46-48 | registers the capturing listener |
| FloatingMenu.FloatingMenuComponent.OnDestroy | src/app/shared/floating-menu/floating-menu.component.ts:50-52 | removes the listener |
| FloatingMenu.FloatingMenuComponent.DocumentMouseDown | src/app/shared/floating-menu/floating-menu.component.ts:33-42 | closes exactly when registered, not meant to stay open, open, the element exists and the click is outside it |
| FloatingMenu.FloatingMenuComponent.OnMenuItemClick | src/app/shared/floating-menu/floating-menu.component.ts:54-59 | runs the item's action if any; stays open only when meant to stay open |
| FloatingMenu.FloatingMenuComponent.ToggleMenu | src/app/shared/floating-menu/floating-menu.component.ts:61-64 | flips both open and spinning |
| FloatingMenu.ToggleScenario | src/app/shared/floating-menu/floating-menu.component.ts:54-64 | two toggles restore a fresh menu; an item click after opening leaves it open exactly when it is meant to stay open |
| Loading.LoadingService.constructor | src/app/core/loading.service.ts:5-6 | count 0, not loading |
| Loading.LoadingService.Show | src/app/core/loading.service.ts:8-10 | one more request in flight; loading |
| Loading.LoadingService.Hide | src/app/core/loading.service.ts:12-14 | one fewer request, never below zero; still loading exactly when more than one was in flight |
| Loading.ShowThenHide | src/app/core/loading.service.ts:4-15 | after n shows and k hides the service is loading exactly when k < n, and surplus hides leave zero |
| StateStore.StateService.constructor | src/app/core/state.service.ts:5 | the store starts empty |
| StateStore.StateService.SetState | src/app/core/state.service.ts:11-13 | the key holds the new value; every other key is unchanged |
| StateStore.StateService.GetState | src/app/core/state.service.ts:15-17 | the stored value, or absent (`undefined`) exactly when the key is missing |
| StateStore.StateService.Reset | src/app/core/state.service.ts:19-21 | the store is empty; every key reads as absent |
| StateStore.WriteReadReset | src/app/core/state.service.ts:11-21 | the later write wins on a shared key and leaves another key alone; after a reset keys read as absent |
| AssessmentState.AssessmentStateService.constructor | src/app/core/assessment-state.service.ts:11-13 | no assessment: null id, empty name and status |
| AssessmentState.AssessmentStateService.SetAssessment | src/app/core/assessment-state.service.ts:15-19 | holds the summary's id, name and status |
| AssessmentState.AssessmentStateService.Clear | src/app/core/assessment-state.service.ts:21-25 | back to no assessment |
| AssessmentState.LastSummaryWins | src/app/core/assessment-state.service.ts:15-19 | after a sequence of summaries the service holds the last one, and repeating it changes nothing |
| AssessmentState.ClearAfter | src/app/core/assessment-state.service.ts:21-25 | `clear` restores the initial state whatever came before |
| Auth.AuthService.constructor | src/app/core/auth.service.ts:5-6 | no user, not authenticated |
| Auth.AuthService.Login | src/app/core/auth.service.ts:16-19 | holds the user (even null) and is authenticated |
| Auth.AuthService.Logout | src/app/core/auth.service.ts:21-24 | no user, not authenticated |
| Auth.Replay | src/app/core/auth.service.ts:16-24 | after a sequence of calls the state is decided by the last call alone: initial after a logout, that user and authenticated after a login |

## Left out

- The Sentry and LogRocket integrations (`error-monitoring.service.ts` 97-118, 174-181, 196-198 and 274-331) call into third-party globals. They are not modelled. `sendErrorData` is modelled up to the custom endpoint.
- Console output is not modelled. The model keeps only the records echoed in development (`echoed`) and the kinds of `console.warn` issued (`warnings`).
- Clock values, `Math.random`, the URL and the user agent are inputs (`Ambient`). They are not computed.
- Timer delays are not modelled: the 30 s flush interval, the backoff `setTimeout`, the 800 ms simulated email delay and the 100 ms drag reset. Timers firing are explicit steps (`IntervalFired`, `RetryTimerFired`, `DragResetElapsed`). The backoff delay is recorded, not waited for.
- ErrorMonitoring.AllAttemptsFail: the retry chain is proved with the most recently scheduled retry fired first (`FireLatest`). Interleavings of the retry timers of several records are not.
- JSON is the pair of parameters `stringify` and `parse`. A stored tag value that parses to something other than a string map is not modelled.
- A configuration field supplied explicitly as `undefined` would override its default with `undefined`. The model treats it as absent.
- The model has no numeric widths: `batchSize`, `maxRetries` and `Math.pow(2, n) * 1000` are unbounded integers.
- `toLowerCase` is modelled on ASCII letters only.
- Strings are sequences of Unicode scalar values, not of UTF-16 code units. A character outside the Basic Multilingual Plane is one `char` here, where JavaScript sees two code units. No normalisation is applied.
- ErrorClassify.Sanitize: a character outside the Basic Multilingual Plane becomes one `_`. The source's `replace` has no `u` flag, so it replaces each of the two surrogate code units and writes `__`. For such messages the model's fingerprint is shorter than the source's.
- ErrorClassify.SentryLevel: the model takes a `Severity`, because the only caller passes a record's severity. The source looks the string up in a plain object, so a key naming an `Object.prototype` member (`constructor`, `toString`) would return that member rather than `error`; that case is not modelled.
- ErrorMonitoring.Attempted: the HTTP response is applied in the same step as the POST that causes it. The `SendFailed` warning and the retry are therefore recorded in POST order. Responses completing later, or out of order, are not modelled.
- ErrorMonitoring.ErrorMonitorService.SendToCustomApi: the same collapse of the POST and its asynchronous response into one step applies. What happens between issuing the request and its completion is not modelled.
- StateStore.StateService.GetState: the store is a map. The source reads a plain object, where a missing key naming an `Object.prototype` member (`constructor`, `toString`, `__proto__`) returns the inherited member rather than `undefined`. The model returns absent for every missing key.
- The fly menu's position handling is not modelled: `loadPosition`, the offset arithmetic of `onDragEnd`, and the stored position with its screen-size tolerance. Neither are the pixel comparisons behind an overflow; `Layout` gives their outcome.
- A fly-menu `toggleMenu` that runs before the view exists would throw, because it reads the element reference. The model assumes the view exists.
- Angular inputs are passed by reference. The model treats `selected`, `items` and the emitted arrays as values, so the aliasing between the emitted array and the component's own list is not captured.
- `onInputFocus` in the chip list only resets the control through a zero-delay timer. It is not modelled.
- `InstructionsText.Other` stands for a non-string, non-array value reaching the input at run time.
- Deployments.AssessmentDeploymentComponent.SaveEdit: the model does not state that numbers stay distinct, because the edited copy may carry any number and the source does not prevent duplicates.
- Email.SendEmail: the observable's asynchronous delivery is reduced to its single outcome.
