# CloneRemoveCache: the cache-clearing automation, modelled in Dafny

The app clears the cache of a list of installed applications. It does this by driving the system Settings screens:

- `ListActivity.startCleanCache` is the sequencer. For each checked package it opens the package's details screen. It clears the per-target "step done" flag, sleeps 500 ms, blocks on a `ConditionVariable` gate for at most 5000 ms, and sleeps 500 ms again. Between targets it checks the interrupt flag.
- `AppCacheCleanerService2` is an accessibility service. It reacts to window-state changes. It searches the current screen's node tree in post-order for:
  - the "clear cache" button, whose id fully matches `com.android.settings:id/.*button.*` and whose text matches a candidate;
  - failing that, the storage sub-menu, whose id is `android:id/title` and whose text matches a candidate.
  
  It clicks what it finds, goes back via the action bar's back button, marks the target's step done, and opens the gate. It does all this only while its record (`MainActivity`'s companion) shows a run in progress, which as written never happens (see Findings).
- `MainActivity` selects the user-installed packages, resolves their labels, and fills `PlaceholderContent`.
- The floating "clear" button of `ListActivity` updates the remembered set of checked packages and starts the sequencer.

Modules:

- `UiTree`: the node tree, its post-order listing, and the "children first, then the node" search both finders use.
- `ButtonIdPattern`: the one regular expression, as a matcher proved equal to the full-match meaning of the pattern.
- `Coordination`: the companion objects' `AtomicBoolean`s and gate. The gate is a `ConditionVariable` class with `Open` and `Block`. `SharedFlags` is one companion object, and `Flags` is its value at one moment.
- `CleanerService`: the service. `React` is a pure function that decides what one event does. The `CleanerService` class holds the candidate lists and the event, receiver and button callbacks, each proved against `React` and its partners.
- `MainActivity`: the package filter as a loop proved against `Selected`, the label fallback chain, and `onResume`, which accumulates into `mListInfo`.
- `PlaceholderContent`: the list model, observed as the calls made into it.
- `ListActivity`: the checked-set update and the sequencer. `StartCleanCache` is proved against `Run`, a pure specification of a whole run over an oracle `env(i)`. The oracle gives what other parties do to the sequencer's flags during target `i`'s wait: open the gate after some milliseconds, or set the interrupt.

Three things about the coordination state shape the model:

- **Two flag records.** `MainActivity` and `ListActivity` each declare a companion object with the same five members: `loadingPkgList`, `cleanAppCacheFinished`, `cleanCacheFinished`, `cleanCacheInterrupt` and `waitAccessibility`.
  - The service reads and writes `MainActivity`'s.
  - The sequencer's unqualified names resolve to `ListActivity`'s own.
  
  So the model has two `SharedFlags` objects. The sequencer clears `cleanCacheFinished` only in its own record (`ListActivity.kt:52`). `MainActivity`'s `cleanCacheFinished` starts true (`MainActivity.kt:148`). No code in `MainActivity.kt`, `ListActivity.kt` or `AppCacheCleanerService2.kt` clears it, so every event returns at `AppCacheCleanerService2.kt:185` and the button at `:136` (`ServiceIdleWhileNoRun`). Nothing in those three files touches the sequencer's record while it runs, so every wait of a run lasts the full 5000 ms (`QuietRunWaitsOutEveryTimeout`). The service's behaviour during a run is still modelled in full, for a record that shows a run in progress (see Findings).
- **The gate is never closed.** No code in those three files calls `close()`. Once opened, a `ConditionVariable` stays open, so a gate opened during one target also releases every later wait at once (`LoopWaitsAreBounded`). `ConditionVariable` in the model has no close.
- **The clear-cache branch does not open the gate.** The clear-cache branch (`AppCacheCleanerService2.kt:204-216`) goes back and returns without calling `open()`. The gate opens only on the next window change, through the "step done" branch (`ClearCacheButtonFoundGoesBackWithoutOpening`, `MenuThenButtonScenario`).

## Model

| member | source | states |
|---|---|---|
| UiTree.FirstMatch | app/src/main/java/com/quannm18/cloneremovecache/service/AppCacheCleanerService2.kt:31-51 | The reference meaning of "first match": None exactly when no element passes the test, otherwise an element that passes it with no passing element before it. |
| UiTree.FindFirstIsFirstInPostOrder | app/src/main/java/com/quannm18/cloneremovecache/service/AppCacheCleanerService2.kt:31-51 | The recursive search (children in order, then the node itself) returns exactly the first node of the tree's post-order listing that passes the test. |
| UiTree.FindFirstInIsFirstInPostOrder | app/src/main/java/com/quannm18/cloneremovecache/service/AppCacheCleanerService2.kt:32-34 | The `forEach` over the children returns the first hit of the forest's post-order listing; a child subtree with a hit ends the loop. |
| UiTree.DescendantBeforeSelf | app/src/main/java/com/quannm18/cloneremovecache/service/AppCacheCleanerService2.kt:32-39 | If any descendant passes the test, the search returns a descendant, never the node itself. |
| ButtonIdPattern.ContainsButtonFrom | app/src/main/java/com/quannm18/cloneremovecache/service/AppCacheCleanerService2.kt:37 | True exactly when "button" occurs in the string at some position from `from` on. |
| ButtonIdPattern.MatchesButtonIdIsFullMatch | app/src/main/java/com/quannm18/cloneremovecache/service/AppCacheCleanerService2.kt:37 | The id matcher accepts a string exactly when it is a full match of `com.android.settings:id/.*button.*`: the two unescaped dots and both `.*` take any characters except line terminators. |
| CleanerService.FirstOrNone | app/src/main/java/com/quannm18/cloneremovecache/service/AppCacheCleanerService2.kt:54-62 | `firstOrNull()`: None exactly for the empty list, otherwise the first element. |
| CleanerService.FindClearCacheButtonIsFirstMatch | app/src/main/java/com/quannm18/cloneremovecache/service/AppCacheCleanerService2.kt:31-40 | `findClearCacheButton` returns null exactly when no node of the tree has a matching id and a candidate text; otherwise it returns the first such node in post-order. |
| CleanerService.FindStorageAndCacheMenuIsFirstMatch | app/src/main/java/com/quannm18/cloneremovecache/service/AppCacheCleanerService2.kt:42-51 | `findStorageAndCacheMenu` returns null exactly when no node has id `android:id/title` and a candidate text; otherwise it returns the first such node in post-order. |
| CleanerService.FindBackButton | app/src/main/java/com/quannm18/cloneremovecache/service/AppCacheCleanerService2.kt:53-66 | Without an action bar (Settings id first, then the framework id) there is no back button. With one, the result is the first `android:id/up` node inside it when there is one, otherwise the nested ImageButton/ImageView lookup. |
| CleanerService.BackClicks | app/src/main/java/com/quannm18/cloneremovecache/service/AppCacheCleanerService2.kt:172-180 | `goBack` clicks exactly the back button when there is one, and nothing when there is none. |
| CleanerService.ClearCacheCandidates | app/src/main/java/com/quannm18/cloneremovecache/service/AppCacheCleanerService2.kt:97-100 | The clear-cache candidates are the live text when given, then the fixed literal, which is always last. |
| CleanerService.StorageCandidates | app/src/main/java/com/quannm18/cloneremovecache/service/AppCacheCleanerService2.kt:102-105 | The storage candidates are the live text when given, then the two fixed literals, always in the last two places. |
| CleanerService.AfterButtonClicked | app/src/main/java/com/quannm18/cloneremovecache/service/AppCacheCleanerService2.kt:135-139 | Outside a run the button changes nothing. During a run it sets the interrupt flag and opens the gate, and leaves the other flags as they were. |
| CleanerService.EventIgnoredOutsideWindowChangesOfARun | app/src/main/java/com/quannm18/cloneremovecache/service/AppCacheCleanerService2.kt:185-190 | With no run in progress, any event type other than a window-state change, or no source node, the event clicks nothing and changes no flag. |
| CleanerService.StepDoneGoesBackAndOpensGate | app/src/main/java/com/quannm18/cloneremovecache/service/AppCacheCleanerService2.kt:198-201 | Once the target's step is done, a window change only goes back and opens the gate. |
| CleanerService.ClearCacheButtonFoundGoesBackWithoutOpening | app/src/main/java/com/quannm18/cloneremovecache/service/AppCacheCleanerService2.kt:204-216 | When the tree has a clear-cache button, the first one in post-order is clicked only if it is enabled. Then the service goes back, and the gate is not opened on this event. |
| CleanerService.StorageMenuFoundClicksOrGivesUp | app/src/main/java/com/quannm18/cloneremovecache/service/AppCacheCleanerService2.kt:218-233 | With no button but a storage menu, the first enabled menu is clicked and nothing else happens. A disabled first menu makes the service go back and open the gate. |
| CleanerService.NothingFoundGoesBackAndOpensGate | app/src/main/java/com/quannm18/cloneremovecache/service/AppCacheCleanerService2.kt:235-237 | With neither a button nor a menu in the tree, the service goes back and opens the gate. |
| CleanerService.ReactionClicksOnlyEnabledTreeNodes | app/src/main/java/com/quannm18/cloneremovecache/service/AppCacheCleanerService2.kt:184-239 | The gate is opened only together with going back. Any action at all needs a run in progress and a window change. A click without going back is one click on an enabled storage menu of the tree. Going back without opening the gate happens only after a clear-cache button of the tree, clicked if enabled. |
| CleanerService.EventsOnlyAdvanceStepAndGate | app/src/main/java/com/quannm18/cloneremovecache/service/AppCacheCleanerService2.kt:184-239 | Over any sequence of events the service never changes `cleanCacheFinished`, `cleanCacheInterrupt` or `loadingPkgList`. A done step stays done, and an open gate stays open. |
| CleanerService.StepDoneThenNextWindowChangeOpensGate | app/src/main/java/com/quannm18/cloneremovecache/service/AppCacheCleanerService2.kt:198-201 | During a run, once the step is done, any later window change leaves the gate open. |
| CleanerService.ServiceIdleWhileNoRun | app/src/main/java/com/quannm18/cloneremovecache/service/AppCacheCleanerService2.kt:185 | While the record shows no run in progress, no sequence of events and no button press changes it; `MainActivity`'s record starts so and nothing clears its run flag. |
| CleanerService.MenuThenButtonScenario | app/src/main/java/com/quannm18/cloneremovecache/service/AppCacheCleanerService2.kt:198-237 | A sub-menu screen, then a button screen, then one more screen: the menu is clicked, the button is clicked and the service goes back without opening the gate, and only the third event opens it. |
| CleanerService.CleanerService.constructor | app/src/main/java/com/quannm18/cloneremovecache/service/AppCacheCleanerService2.kt:85-95 | `onCreate` seeds the lists with `updateLocaleText(null, null)`: only the fixed literals. |
| CleanerService.CleanerService.UpdateLocaleText | app/src/main/java/com/quannm18/cloneremovecache/service/AppCacheCleanerService2.kt:97-106 | Both lists are rebuilt from the arguments alone; nothing of the old lists survives. |
| CleanerService.CleanerService.OnReceive | app/src/main/java/com/quannm18/cloneremovecache/service/AppCacheCleanerService2.kt:68-83 | "addExtraSearchText" rebuilds both lists from the "clear_cache" and "storage" extras; every other broadcast leaves them alone. "disableSelf" disables the service exactly from Android N on, and unregisters the button exactly from Android O on. The effect is "search texts updated" exactly for "addExtraSearchText", and "ignored" for every other case. |
| CleanerService.CleanerService.GoBack | app/src/main/java/com/quannm18/cloneremovecache/service/AppCacheCleanerService2.kt:172-182 | Clicks exactly the back button, if any. Sets `cleanAppCacheFinished` whatever the click answered. Leaves the other flags alone. |
| CleanerService.CleanerService.OnAccessibilityEvent | app/src/main/java/com/quannm18/cloneremovecache/service/AppCacheCleanerService2.kt:184-239 | Makes exactly the clicks `React` decides for `MainActivity`'s flags, and leaves those flags and the gate as `AfterReaction` says. |
| CleanerService.CleanerService.OnAccessibilityButtonClicked | app/src/main/java/com/quannm18/cloneremovecache/service/AppCacheCleanerService2.kt:135-139 | The new flags are `AfterButtonClicked` of the old ones. |
| Coordination.BlockOutcome | app/src/main/java/com/quannm18/cloneremovecache/ListActivity.kt:59 | `block(timeout)` for a positive timeout (the program passes only 5000) waits at most the timeout. On an open gate it returns at once. It is released exactly when the gate is open or is opened within the timeout, and otherwise waits the whole timeout. |
| Coordination.ConditionVariable.constructor | app/src/main/java/com/quannm18/cloneremovecache/MainActivity.kt:150 | A new `ConditionVariable` is closed. |
| Coordination.ConditionVariable.Open | app/src/main/java/com/quannm18/cloneremovecache/service/AppCacheCleanerService2.kt:201 | `open()` leaves the gate open. |
| Coordination.ConditionVariable.Block | app/src/main/java/com/quannm18/cloneremovecache/ListActivity.kt:59 | Returns `BlockOutcome` for the gate's state. The gate is open afterwards exactly when it was open or was opened during the wait. |
| Coordination.SharedFlags.constructor | app/src/main/java/com/quannm18/cloneremovecache/MainActivity.kt:146-150 | A companion starts with `cleanCacheFinished` true, every other flag false, and a fresh closed gate. |
| MainActivity.SelectedMembership | app/src/main/java/com/quannm18/cloneremovecache/MainActivity.kt:80-89 | A package is selected exactly when it is installed and passes the flag test. |
| MainActivity.SelectedIsSubsequence | app/src/main/java/com/quannm18/cloneremovecache/MainActivity.kt:80-89 | The selection keeps the installed list's order: it is a subsequence of it. |
| MainActivity.SelectorsAreComplementary | app/src/main/java/com/quannm18/cloneremovecache/MainActivity.kt:83-86 | The system-only and user-only tests split every package between them: with both selectors every package is kept, with neither none is. |
| MainActivity.GetListInstalledApps | app/src/main/java/com/quannm18/cloneremovecache/MainActivity.kt:74-91 | The index loop returns exactly the selection of the installed list. |
| MainActivity.LabelFallbackOrder | app/src/main/java/com/quannm18/cloneremovecache/MainActivity.kt:114-127 | The label is the localized string when the resources were found and `labelRes` is not 0. Otherwise it is the non-localized label when there is one, and otherwise the package name. |
| MainActivity.AddItemCallsOnePerPackage | app/src/main/java/com/quannm18/cloneremovecache/MainActivity.kt:112-133 | One `addItem` per package, at the package's own position, with its label and `checked = false`. |
| MainActivity.MainActivity.constructor | app/src/main/java/com/quannm18/cloneremovecache/MainActivity.kt:28-29 | Both lists start empty. |
| MainActivity.MainActivity.AddPackageToPlaceholderContent | app/src/main/java/com/quannm18/cloneremovecache/MainActivity.kt:110-136 | `ITEMS.clear()`, then the `addItem` calls for `mListInfo` in order, then `sort()`. |
| MainActivity.MainActivity.OnResume | app/src/main/java/com/quannm18/cloneremovecache/MainActivity.kt:59-72 | With the permission: clears `mListDefault`, appends the user packages to `mListInfo`, and rebuilds the content from the whole of `mListInfo`. Without it, nothing changes. |
| MainActivity.ResumeTwiceAccumulates | app/src/main/java/com/quannm18/cloneremovecache/MainActivity.kt:62-64 | `mListInfo` is never cleared: two permitted resumes list every user package twice. |
| ListActivity.NamesMembership | app/src/main/java/com/quannm18/cloneremovecache/ListActivity.kt:40-44 | A name is in the checked (unchecked) names exactly when some item of that name is checked (unchecked). |
| ListActivity.CheckedSetAfterFabMeaning | app/src/main/java/com/quannm18/cloneremovecache/ListActivity.kt:40-41 | After the handler the set holds each checked item's name unless an unchecked item shares it, holds no unchecked item's name, and is unchanged for names of no item. |
| ListActivity.StopIndex | app/src/main/java/com/quannm18/cloneremovecache/ListActivity.kt:63 | The first index from `i` on whose wait brings an interrupt: every earlier index brings none, and the result is the list's length exactly when no index before it does. |
| ListActivity.LoopVisitsInOrder | app/src/main/java/com/quannm18/cloneremovecache/ListActivity.kt:54-64 | From any index the loop visits the following targets in order, each once, up to and including the first whose wait brings an interrupt. It ends interrupted exactly when there is one, and leaves the step flag cleared. |
| ListActivity.LoopWaitsAreBounded | app/src/main/java/com/quannm18/cloneremovecache/ListActivity.kt:58-60 | Every wait lasts at most 5000 ms. An open gate stays open, and every later wait then takes no time. |
| ListActivity.QuietLoopWaitsInFull | app/src/main/java/com/quannm18/cloneremovecache/ListActivity.kt:54-64 | If nobody touches the sequencer's flags and its gate is closed, every target is visited and every wait lasts the full 5000 ms. |
| ListActivity.IterationElapsed | app/src/main/java/com/quannm18/cloneremovecache/ListActivity.kt:57-60 | One iteration sleeps 2 × 500 ms plus its wait. |
| ListActivity.TraceElapsed | app/src/main/java/com/quannm18/cloneremovecache/ListActivity.kt:51-65 | A run spends exactly 1000 ms per visited target plus its waits, and nothing else. |
| ListActivity.RunVisitsTargetsInOrder | app/src/main/java/com/quannm18/cloneremovecache/ListActivity.kt:50-81 | A run visits the targets in list order, each at most once, and stops right after the first interrupted wait. The summary is "interrupted" exactly when such a wait exists; otherwise every target was visited. `cleanCacheFinished` ends true. The screen is relaunched exactly for a non-empty list below Android P. |
| ListActivity.RunTimeIsBounded | app/src/main/java/com/quannm18/cloneremovecache/ListActivity.kt:54-64 | A run sleeps and waits at most 6000 ms per target. With the gate already open, it stays open and only the 1000 ms of settle delays per target remain. |
| ListActivity.QuietRunWaitsOutEveryTimeout | app/src/main/java/com/quannm18/cloneremovecache/ListActivity.kt:50-65 | If nobody else writes the sequencer's own companion members, a run from a closed gate visits every target, waits 5000 ms on each, takes exactly 6000 ms per target and reports "finished". |
| ListActivity.TraceOrder | app/src/main/java/com/quannm18/cloneremovecache/ListActivity.kt:51-65 | A run first clears the interrupt flag and then `cleanCacheFinished`. Every navigation is followed by clearing the step flag, a 500 ms sleep, the wait and a 500 ms sleep. `cleanCacheFinished` is set true once, as the last step. |
| ListActivity.OpsShape | app/src/main/java/com/quannm18/cloneremovecache/ListActivity.kt:54-60 | The loop's steps come in blocks of five per target. A navigation opens each block. No loop step touches the interrupt flag or `cleanCacheFinished`. |
| ListActivity.LaunchOutcomeDoesNotSteerRun | app/src/main/java/com/quannm18/cloneremovecache/ListActivity.kt:83-94 | A failed launch is swallowed and steers nothing: two runs that differ only in which details screens can be started end with the same flags, summary and relaunch decision, and visit the same targets with the same waits. |
| ListActivity.CleanOne | app/src/main/java/com/quannm18/cloneremovecache/ListActivity.kt:55-60 | One pass of the loop body leaves the flags and visit that `Iterate` gives, and records its steps as they happen: the launch, clearing the step flag, a 500 ms delay, the wait, a 500 ms delay. Each step is a method that both acts and records itself. |
| ListActivity.ListActivity.constructor | app/src/main/java/com/quannm18/cloneremovecache/ListActivity.kt:28 | The remembered set starts empty. |
| ListActivity.ListActivity.OnFabClear | app/src/main/java/com/quannm18/cloneremovecache/ListActivity.kt:39-46 | The set becomes `CheckedSetAfterFab` of the old set: checked names added, then unchecked names removed. The list handed to the sequencer is the checked items' names in order. |
| ListActivity.ListActivity.StartCleanCache | app/src/main/java/com/quannm18/cloneremovecache/ListActivity.kt:50-81 | The final flags, the summary and the relaunch decision are those of `Run` from the flags at the call, and the steps its statements take, recorded as they act, are `Trace` of the run's visits (so `TraceOrder` and `TraceElapsed` describe what it does). |
| ListActivity.ButtonDoesNotReachSequencer | app/src/main/java/com/quannm18/cloneremovecache/ListActivity.kt:50-60 | From start-up, with the sequencer's run started on its own record, the button leaves `MainActivity`'s record as it was (its run flag is still true), the sequencer sees no interrupt, and a wait on its closed gate lasts the full 5000 ms. |
| ListActivity.ButtonStopsSharedRun | app/src/main/java/com/quannm18/cloneremovecache/service/AppCacheCleanerService2.kt:135-139 | With one record shared by both sides, the run's start clears the run flag there, so the button sets the interrupt and releases the wait at once. |

## Left out

- Logging, `showTree`, the debug log file (`createLogFile`, `deleteLogFile`) and `BuildConfig.DEBUG`: these have no effect on the automation.
- `onServiceConnected`, `registerButton` and `unregisterButton` are left out. The model does not cover whether the button is available on a given Android version, nor `onAvailabilityChanged`. Only the button's `onClicked` effect is modelled.
- `disableSelf()`, `startActivity`, toasts, `runOnUiThread`, intent flags and the display text: Android plumbing. The receiver's and the sequencer's outcomes are returned as values instead (`ReceiverEffect`, `relaunched`, `Summary`).
- Threads and real time: the coroutine, the `AtomicBoolean` memory semantics and real blocking. Waits and sleeps are millisecond counts. What the other party does during a wait is the oracle `env`. `StartCleanCache` runs as one atomic call.
- `lowercaseCompareText`, `findAccessibilityNodeInfosByViewId`, `findNestedChildByClassName` and `performClick` are not part of this model. They are uninterpreted parameters. `getAllChild()` is taken to be the node's children in order.
- `PlaceholderContent.addItem`, `sort`, `PlaceholderPackage` and `MyAdapter` are not part of this model. The companions' members are public, so code in files outside the three modelled ones (`MyAdapter`, `PlaceholderContent`, `util`) could reach them; the model assumes it does not. Calls into them are recorded, and items are reduced to `name` and `checked`.
- Icons (`getApplicationIcon`) and storage statistics (`getStorageStats`) are not modelled.
  - A `NameNotFoundException` thrown by `getApplicationIcon` skips the localized label. The model counts that case as `AppResources.NameNotFound`.
  - `sort()` is not part of this model, so whether the order depends on the statistics is outside it.
- `MainActivity.LabelFallbackOrder`: a `Resources.NotFoundException` thrown by `getString` is not caught by the source and would crash. The model treats `getString` as total.
- Coordination.BlockOutcome: `block(0)`, which waits without a bound, is excluded by `timeout > 0`; the program never passes 0.
- Strings are sequences of Unicode characters. UTF-16 surrogate pairs and the `CharSequence` kinds are not distinguished.
- `permissionGranted` stands for `checkUsageStatsPermission`, which is not part of this model.
- The other activity screens (`onCreate` click listeners, settings shortcuts) are not part of the automation.

## Findings

| source | as written | input that shows it | evidently intended | confidence | as-written member | corrected member |
|---|---|---|---|---|---|---|
| app/src/main/java/com/quannm18/cloneremovecache/ListActivity.kt:104-108 | `ListActivity` declares its own companion with its own `cleanCacheFinished`, `cleanCacheInterrupt` and `waitAccessibility`, and the sequencer uses those. The service and the stop button read and write `MainActivity`'s, whose `cleanCacheFinished` stays true. | Any run over one target while the user presses the stop button: the service ignores every event (`AppCacheCleanerService2.kt:185`) and the button does nothing (`AppCacheCleanerService2.kt:136`); the sequencer waits the full 5000 ms, is not interrupted, and reports "finished". | The sequencer and the service share one record. Starting a run clears its run flag there, so the service reacts to the screens, its `open()` ends the wait early, and the stop button interrupts the run. | not executed; high | ListActivity.ButtonDoesNotReachSequencer | ListActivity.ButtonStopsSharedRun |
