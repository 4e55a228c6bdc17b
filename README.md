# Android app template: a verified model of its core

This project models the behaviour of an Android app template written in Kotlin with Jetpack Compose and Circuit. The app has three screens (Home, Search and Settings), a bottom navigation bar with two tabs, and its own haptic-feedback layer. The model covers:

- **Search session** (`SearchSession`, `SearchPresenter`). `SearchStateProvider` is the object behind the search screen. It holds the query, the result list, the "searching" flag and the current job. The class `SearchPresenter.SearchStateProvider` updates these as fields, statement by statement as in the source. Every method is proved to move its fields exactly as its value-level transition in `SearchSession` does: the constructor as `Initial`, `HandleEvent`, `DebouncedSearch` and `PerformSearch` as the functions of the same names, `DelayElapses` as `DelayElapsed`, and `ClientReturns` as `ClientReturned`. The properties of whole event sequences are proved on those transitions as lemmas over `Run`, a function that folds a trace of inputs. These lemmas cover:
  - debounce suppression;
  - the cancellation race between two searches;
  - a cleared query versus a pending or a running job;
  - the failure path;
  - the states a presenter test expects.

  The coroutine steps the source leaves to the scheduler are explicit inputs: "the current job's delay elapses" and "task *n*'s client call returns *outcome*".
- **Search screen** (`SearchScreen`, `SearchUi`):
  - the two UI states and four events;
  - which view a state selects;
  - the rows of the result list: loading row, result rows with their keys, shapes, titles and padding, and the bottom spacer;
  - the search field's remembered text and its three handlers.
- **Theme** (`Theme`): the padding scale, the four list-row shapes and `calculateListShape`, and the colour-scheme choice by API level and dark flag.
- **Main activity** (`MainActivity`): the dark-mode setting resolved to one flag, which drives the theme and both system bars.
- **Selection sheet and settings** (`SelectionSheets`, `SettingsScreen`):
  - the choice sheet with and without confirmation mode: taps, Apply (enabled only after a change), Cancel and dismissal;
  - the dark-mode row's description;
  - storing the picked mode.
- **Haptics** (`HapticFeedback`):
  - the six feedback kinds;
  - the table that turns a kind, the API level and the vibrator's abilities into one platform action;
  - the disabled and the real manager;
  - the composable that creates and remembers the real manager.
- **Scaffold** (`AppScaffold`):
  - the tabs and their root screens;
  - the selected tab, derived from the top of the back stack;
  - bottom-bar visibility and filled icons;
  - what a tab tap does;
  - the home screen's one navigation event.

Kotlin `Int` and `Long` fields are kept to their 32- and 64-bit ranges (`ITunesModels.Int32`, `Int64`). Strings are sequences of characters. Android API levels are integers compared with the `Build.VERSION_CODES` values Q = 29, R = 30 and S = 31 (`BuildVersion`).

Parameters stand in for what the model cannot see:

- the system dark setting;
- the API level;
- the vibrator service (`VibratorInfo`);
- string resources (`DarkModeLabels`, `StringRes`);
- the outcome of each catalog call (`SearchOutcome`).

Effects are returned or recorded instead of being performed:

- a haptic request yields a `PlatformAction`;
- the terms sent to the catalog client are appended to `requests`;
- the haptic kinds the scaffold requests are appended to `AppNavigator.requested`.

## Model

| member | source | states |
|---|---|---|
| ITunesModels.OnlyArtistAndWrapperRequired | app/src/main/java/com/template/data/itunes/ITunesModels.kt:8-20 | A result built from only the artist name and wrapper type has every other field absent. |
| SearchSession.StateOf | app/src/main/java/com/template/screens/search/SearchPresenter.kt:72-84 | The state is `Empty` exactly when the query is blank and there are no results. Either way it carries the live query. A `Loaded` state carries the stored results and flag. |
| SearchSession.Initial | app/src/main/java/com/template/screens/search/SearchPresenter.kt:56-70 | A new provider satisfies the session invariant. A blank initial query starts `Empty` with no job and no request. A non-blank one is searched at once, with no delay: one request, flag set, job running. |
| SearchSession.HandleEvent | app/src/main/java/com/template/screens/search/SearchPresenter.kt:86-103 | `UpdateQuery` stores the text and replaces the current job with a fresh debounce job. It leaves the results, the flag and the pending calls alone, and calls no client. `Search` is `performSearch`. `ClearQuery` empties query and results (state `Empty("")`) and keeps the job and the flag. `ClickResult` changes nothing. The invariant is kept. |
| SearchSession.DebouncedSearch | app/src/main/java/com/template/screens/search/SearchPresenter.kt:105-112 | The old job is replaced (cancelled) by a fresh debounce job. Nothing else changes. The invariant is kept. |
| SearchSession.PerformSearch | app/src/main/java/com/template/screens/search/SearchPresenter.kt:114-140 | The current job is always cancelled. A blank query then clears the results and starts nothing. Otherwise a new running task sets the flag and sends the live query to the client, as the last request. The invariant is kept. |
| SearchSession.DelayElapsed | app/src/main/java/com/template/screens/search/SearchPresenter.kt:108-110 | When the delay elapses, the query as it is then is searched: the flag is set, task `nextId` is in flight and the query is the last request. A blank query instead clears the results, ends with no job, and keeps the flag and the pending calls. |
| SearchSession.ClientReturned | app/src/main/java/com/template/screens/search/SearchPresenter.kt:123-139 | Only the current task's successful call replaces the results, with the response's list. A failure or a superseded task keeps them. Every return clears the flag. The invariant is kept. |
| SearchSession.RunKeepsValid | app/src/main/java/com/template/screens/search/SearchPresenter.kt:61-140 | Every possible input sequence keeps the session invariant. The live job's bookkeeping stays consistent, the flag is set only while a call is pending, and no request is blank. |
| SearchSession.ClientNeverSeesBlankTerm | app/src/main/java/com/template/screens/search/SearchPresenter.kt:114-127 | From construction on, under any inputs, the client is never asked to search for a blank term. This holds because every task's body is taken to start at launch; see "## Left out". |
| SearchSession.EditsOnlyDebounce | app/src/main/java/com/template/screens/search/SearchPresenter.kt:88-91 | A burst of edits sends no request and leaves the results alone. It leaves only the last edit's debounce job live, under the last text. |
| SearchSession.OnlyLastEditReachesClient | app/src/main/java/com/template/screens/search/SearchPresenter.kt:105-112 | After a burst of edits and one elapsed delay, exactly one request has been made, for the last text, unless that text is blank. |
| SearchSession.SearchBypassesDebounce | app/src/main/java/com/template/screens/search/SearchPresenter.kt:93 | An explicit search of a non-blank query calls the client in the same step and sets the flag. |
| SearchSession.ClearedEditNeverSearched | app/src/main/java/com/template/screens/search/SearchPresenter.kt:94-97 | Clearing does not cancel a pending debounce. When its delay elapses, the blank live query makes it clear the results and call no client, and the state is `Empty`. |
| SearchSession.ClearedSearchStillDelivers | app/src/main/java/com/template/screens/search/SearchPresenter.kt:94-97 | Clearing does not cancel a running search. Its successful results arrive under an empty query, and the state is `Loaded("", results, false)`. |
| SearchSession.FailureKeepsResults | app/src/main/java/com/template/screens/search/SearchPresenter.kt:133-138 | A failed call leaves the previous results and clears the flag. |
| SearchSession.SupersededSearchNeverWrites | app/src/main/java/com/template/screens/search/SearchPresenter.kt:121-139 | Take a running search A replaced by a new search B. Whatever A's call returns afterwards, B's results stay, the flag is clear and no job remains. |
| SearchSession.SupersededStaysSuperseded | app/src/main/java/com/template/screens/search/SearchPresenter.kt:105-139 | Once task a is not the current job, no later sequence of inputs makes it current again. Every launch takes a fresh id. |
| SearchSession.LateReturnNeverWrites | app/src/main/java/com/template/screens/search/SearchPresenter.kt:121-139 | After task a has been superseded, whatever inputs follow, its late return leaves the results unchanged. |
| SearchSession.SupersededTaskClearsSearchingFlag | app/src/main/java/com/template/screens/search/SearchPresenter.kt:121-139 | The late return of a superseded task still clears the flag. If the cancelled call resumes only after the new task has started, the flag is therefore clear while the current search is in flight. |
| SearchSession.EditThenResultsScenario | app/src/test/java/com/template/screens/search/SearchPresenterTest.kt:58-92 | The states an edit to "test" goes through: `Empty("")`, then `Loaded("test", [], false)`, then searching with one request for "test", then the response's results with the flag clear. |
| SearchPresenter.SearchStateProvider.State | app/src/main/java/com/template/screens/search/SearchPresenter.kt:72-84 | The state getter: `Empty` exactly when the query is blank and the list is empty. Otherwise `Loaded` with the fields' values. |
| SearchPresenter.SearchStateProvider.Snapshot | app/src/main/java/com/template/screens/search/SearchPresenter.kt:61-64 | Definition: the provider's fields read as one `SearchSession.Session` value. |
| SearchPresenter.SearchStateProvider.constructor | app/src/main/java/com/template/screens/search/SearchPresenter.kt:56-70 | The fields start as `SearchSession.Initial` says, which satisfies the invariant. |
| SearchPresenter.SearchStateProvider.HandleEvent | app/src/main/java/com/template/screens/search/SearchPresenter.kt:86-103 | The fields move exactly as `SearchSession.HandleEvent` says. |
| SearchPresenter.SearchStateProvider.DebouncedSearch | app/src/main/java/com/template/screens/search/SearchPresenter.kt:105-112 | The fields move exactly as `SearchSession.DebouncedSearch` says. |
| SearchPresenter.SearchStateProvider.PerformSearch | app/src/main/java/com/template/screens/search/SearchPresenter.kt:114-140 | The fields move exactly as `SearchSession.PerformSearch` says. |
| SearchPresenter.SearchStateProvider.DelayElapses | app/src/main/java/com/template/screens/search/SearchPresenter.kt:108-110 | Only the live debounce job's delay can elapse. The fields then move as `SearchSession.DelayElapsed` says. |
| SearchPresenter.SearchStateProvider.ClientReturns | app/src/main/java/com/template/screens/search/SearchPresenter.kt:123-139 | Only a pending call can return. The clear-and-refill of the list and the flag move as `SearchSession.ClientReturned` says. |
| SearchPresenter.SearchUpdatesResults | app/src/test/java/com/template/screens/search/SearchPresenterTest.kt:47-92 | Drives the class itself through the test's trace. The states are `Empty("")`, `Loaded("test", [], false)`, `Loaded("test", [], true)`, then the response's results with the flag clear. The client received exactly `["test"]`. |
| Theme.CornersOf | app/src/main/java/com/template/ui/theme/Theme.kt:51-70 | Each shape's corners: large on the top for full and top rows, large on the bottom for full and bottom rows, small elsewhere. Start and end corners are equal. |
| Theme.CalculateListShape | app/src/main/java/com/template/ui/theme/Theme.kt:72-78 | A one-row list is fully rounded. In a list, a row has large top corners exactly when it is the first and large bottom corners exactly when it is the last. |
| Theme.ListShapes | app/src/main/java/com/template/ui/theme/Theme.kt:72-78 | An n-row list's shapes: one row is `ListFull`; a longer list starts with `ListTop`, ends with `ListBottom` and has `ListMiddle` in between. |
| Theme.ListShapeCounts | app/src/main/java/com/template/ui/theme/Theme.kt:72-78 | A list of at least two rows has exactly one top row, one bottom row, n - 2 middle rows and no full row. |
| Theme.TemplateTheme | app/src/main/java/com/template/ui/theme/Theme.kt:18-33 | The scheme is dark exactly when the dark flag is set. It is wallpaper-derived exactly from Android 12 (API 31) on. |
| SearchUi.ResultKey | app/src/main/java/com/template/screens/search/SearchUi.kt:266-268 | The key of a row is the track id if there is one, else the collection id, else the result's hash (never a name key). |
| SearchUi.Title | app/src/main/java/com/template/screens/search/SearchUi.kt:326 | The title is the track name, else the collection name, else "Unknown". |
| SearchUi.Subtitle | app/src/main/java/com/template/screens/search/SearchUi.kt:333 | Definition: a result row's second line is the artist name. |
| SearchUi.KeyOf | app/src/main/java/com/template/screens/search/SearchUi.kt:259-283 | Definition: the loading row's key is "loading", the spacer's "bottom-spacer", and a result row's key is `ResultKey`. |
| SearchUi.ResultRowAt | app/src/main/java/com/template/screens/search/SearchUi.kt:264-280 | Row i shows result i. Its shape comes from its position among all the results. Its top padding is `Padding.small` for the first row and 0 otherwise. |
| SearchUi.Rows | app/src/main/java/com/template/screens/search/SearchUi.kt:258-286 | A loading row comes first exactly while searching. Then comes one row per result, in order. A bottom spacer comes last exactly when there are results. |
| SearchUi.ViewFor | app/src/main/java/com/template/screens/search/SearchUi.kt:84-90 | `Empty` shows the hint. `Loaded` with no results and no search running shows "no results". Anything else shows the list, which then has a row. |
| SearchUi.ResultsAlwaysListed | app/src/main/java/com/template/screens/search/SearchUi.kt:236-286 | A session that holds results always shows them as the list, whatever the query, the blank one included. |
| SearchUi.SearchTopBar.constructor | app/src/main/java/com/template/screens/search/SearchUi.kt:102-110 | The field starts with the state's query. |
| SearchUi.SearchTopBar.Recompose | app/src/main/java/com/template/screens/search/SearchUi.kt:102-110 | The remembered text is reset to the state's query exactly when that query changed. Otherwise it is kept. |
| SearchUi.SearchTopBar.OnValueChange | app/src/main/java/com/template/screens/search/SearchUi.kt:113-118 | An edit always updates the field. It emits `UpdateQuery` exactly when the new text differs from the state's query. |
| SearchUi.SearchTopBar.OnSearch | app/src/main/java/com/template/screens/search/SearchUi.kt:119-122 | The keyboard's search action emits `Search`. |
| SearchUi.SearchTopBar.OnClear | app/src/main/java/com/template/screens/search/SearchUi.kt:123-126 | Clear empties the field, which hides the clear button, and emits `ClearQuery`. |
| SearchUi.SearchTopBar.ClearButtonVisible | app/src/main/java/com/template/screens/search/SearchUi.kt:187 | Definition: the clear button is shown exactly while the field's text is non-empty. |
| SearchUi.TypeIntoField | app/src/main/java/com/template/screens/search/SearchUi.kt:113-118 | After one edit goes through the field, the presenter and the recomposition, the field, the bar's key and the presenter's query all hold the new text. |
| SelectionSheets.SelectionSheetOverlay | app/src/main/java/com/template/ui/components/SelectionSheetOverlay.kt:121-141 | The overlay carries the given title, options and selection. Confirmation mode is off unless asked for. Dismissing yields `Cancelled`. |
| SelectionSheets.SelectionSheet.constructor | app/src/main/java/com/template/ui/components/SelectionSheetOverlay.kt:143-152 | The sheet opens on the model's options and selection, with nothing decided. |
| SelectionSheets.SelectionSheet.FooterShown | app/src/main/java/com/template/ui/components/SelectionSheetOverlay.kt:157 | Definition: the Cancel/Apply footer exists exactly in confirmation mode. |
| SelectionSheets.SelectionSheet.ApplyEnabled | app/src/main/java/com/template/ui/components/SelectionSheetOverlay.kt:162 | Definition: Apply is enabled exactly while the choice differs from the initial selection. |
| SelectionSheets.SelectionSheet.IsRowSelected | app/src/main/java/com/template/ui/components/SelectionSheetOverlay.kt:174 | Definition: a row is drawn as selected exactly when its value is the current choice. |
| SelectionSheets.SelectionSheet.RowShape | app/src/main/java/com/template/ui/components/SelectionSheetOverlay.kt:183 | Definition: a row's shape is `calculateListShape` of its index and the options' count. |
| SelectionSheets.SelectionSheet.TapOption | app/src/main/java/com/template/ui/components/SelectionSheetOverlay.kt:173-182 | In confirmation mode a tap moves the choice, which is then drawn as selected, and the sheet stays open. Otherwise the tap finishes the sheet with that option's value. |
| SelectionSheets.SelectionSheet.Apply | app/src/main/java/com/template/ui/components/SelectionSheetOverlay.kt:157-163 | Apply finishes with the current choice only when that choice differs from the initial one. The button does nothing while disabled. |
| SelectionSheets.SelectionSheet.Cancel | app/src/main/java/com/template/ui/components/SelectionSheetOverlay.kt:139 | Cancel finishes the sheet with `Cancelled`. |
| SelectionSheets.SelectionSheet.Dismiss | app/src/main/java/com/template/ui/components/SelectionSheetOverlay.kt:129 | Dismissing the sheet finishes it with `Cancelled`. |
| SettingsScreen.DarkModeOptions | app/src/main/java/com/template/screens/settings/SettingsScreen.kt:49-53 | Three options, System, Light and Dark in that order. Every mode is offered exactly once, and each option's label is its mode's label. |
| SettingsScreen.LabelOf | app/src/main/java/com/template/screens/settings/SettingsScreen.kt:50-52 | Definition: each mode's label resource. |
| SettingsScreen.EveryModeOffered | app/src/main/java/com/template/screens/settings/SettingsScreen.kt:49-53 | A list starting System, Light, Dark offers every mode. |
| SettingsScreen.Find | app/src/main/java/com/template/screens/settings/SettingsScreen.kt:54 | `find` yields nothing exactly when no option holds the value. Otherwise it yields the first option that does. |
| SettingsScreen.DescriptionFor | app/src/main/java/com/template/screens/settings/SettingsScreen.kt:54 | Definition: the label of the first option holding the mode, or "" when none does. |
| SettingsScreen.DescriptionIsModeLabel | app/src/main/java/com/template/screens/settings/SettingsScreen.kt:49-54 | Every mode is found among the options. The row's description is always that mode's label, never the empty fallback. |
| SettingsScreen.SettingsUi.constructor | app/src/main/java/com/template/screens/settings/SettingsScreen.kt:45 | The screen starts on the stored dark mode. |
| SettingsScreen.SettingsUi.Description | app/src/main/java/com/template/screens/settings/SettingsScreen.kt:54 | Definition: the row's description is `DescriptionFor` of the options and the current mode. |
| SettingsScreen.SettingsUi.OpenDarkModeSheet | app/src/main/java/com/template/screens/settings/SettingsScreen.kt:87-95 | Tapping the row opens the sheet on the current mode, with the dark-mode title and options and without confirmation mode. |
| SettingsScreen.SettingsUi.ApplySheetResult | app/src/main/java/com/template/screens/settings/SettingsScreen.kt:96-98 | `Selected(v)` stores v. `Cancelled` keeps the mode. |
| SettingsScreen.PickDarkMode | app/src/main/java/com/template/screens/settings/SettingsScreen.kt:87-99 | Picking option i stores its mode, and the row then shows its label. |
| MainActivity.IsDarkTheme | app/src/main/java/com/template/MainActivity.kt:25-29 | SYSTEM follows the system setting. LIGHT is never dark. DARK is always dark. |
| MainActivity.ActivityAppearance | app/src/main/java/com/template/MainActivity.kt:24-46 | The theme's scheme and both bar styles all use the resolved dark flag. The scheme is dynamic exactly from Android 12 on. |
| HapticFeedback.Dispatch | app/src/main/java/com/template/ui/haptic/HapticFeedbackManager.kt:61-128 | A tab click plays THUD only from Android 12 on, with a vibrator that supports it, and a long press otherwise. Every other kind plays its predefined effect from Android 10 on: tick for navigation and selection, click for scroll-to-top and action, heavy click for refresh. With no vibrator it plays nothing. Before Android 10 the fallback is text-handle-move for ticks and long press for the rest. |
| HapticFeedback.EffectFor | app/src/main/java/com/template/ui/haptic/HapticFeedbackManager.kt:64-71 | Definition: each non-tab kind's predefined effect. Navigation and Selection tick, ScrollToTop and Action click, RefreshThreshold heavy-clicks. |
| HapticFeedback.PlayThud | app/src/main/java/com/template/ui/haptic/HapticFeedbackManager.kt:80-86 | Definition: the THUD primitive from Android 12 on, a long press before. |
| HapticFeedback.PlayTick | app/src/main/java/com/template/ui/haptic/HapticFeedbackManager.kt:88-94 | Definition: the tick effect from Android 10 on, a text-handle move before. |
| HapticFeedback.PlayClick | app/src/main/java/com/template/ui/haptic/HapticFeedbackManager.kt:96-102 | Definition: the click effect from Android 10 on, a long press before. |
| HapticFeedback.PlayHeavyClick | app/src/main/java/com/template/ui/haptic/HapticFeedbackManager.kt:104-110 | Definition: the heavy-click effect from Android 10 on, a long press before. |
| HapticFeedback.PlayPredefined | app/src/main/java/com/template/ui/haptic/HapticFeedbackManager.kt:112-116 | Definition: vibrates the effect only from Android 10 on with a vibrator, otherwise nothing. |
| HapticFeedback.PlayPrimitiveThud | app/src/main/java/com/template/ui/haptic/HapticFeedbackManager.kt:118-128 | Definition: vibrates the primitive from Android 11 on with a vibrator that supports it, otherwise a long press. |
| HapticFeedback.RealHapticFeedbackManager.constructor | app/src/main/java/com/template/ui/haptic/HapticFeedbackManager.kt:46-59 | A real manager starts enabled, with the device's API level and vibrator. |
| HapticFeedback.RealHapticFeedbackManager.PerformHaptic | app/src/main/java/com/template/ui/haptic/HapticFeedbackManager.kt:61-72 | A disabled manager does nothing. An enabled one performs the `Dispatch` action. |
| HapticFeedback.RealHapticFeedbackManager.SetEnabled | app/src/main/java/com/template/ui/haptic/HapticFeedbackManager.kt:74-76 | Stores the flag. |
| HapticFeedback.RealHapticFeedbackManager.IsEnabled | app/src/main/java/com/template/ui/haptic/HapticFeedbackManager.kt:78 | Definition: reports the stored flag. |
| HapticFeedback.PerformHaptic | app/src/main/java/com/template/ui/haptic/HapticFeedbackManager.kt:16-22 | Through the interface, the disabled manager never acts, and a real one acts as its flag and `Dispatch` say. |
| HapticFeedback.SetEnabled | app/src/main/java/com/template/ui/haptic/HapticFeedbackManager.kt:38-44 | Through the interface, the disabled manager ignores the call, and a real one stores the flag. |
| HapticFeedback.IsEnabled | app/src/main/java/com/template/ui/haptic/HapticFeedbackManager.kt:38-44 | The disabled manager always reports false. A real one reports its flag. |
| HapticFeedback.LocalHapticFeedbackManagerDefault | app/src/main/java/com/template/ui/haptic/HapticFeedbackManager.kt:24-25 | Outside `WithHapticFeedbackManager`, the provided manager is the disabled one, which is never enabled. |
| HapticFeedback.HapticHost.constructor | app/src/main/java/com/template/ui/haptic/HapticFeedbackManager.kt:27-36 | The first composition creates a fresh real manager and gives it the `enabled` it was passed. |
| HapticFeedback.HapticHost.Provided | app/src/main/java/com/template/ui/haptic/HapticFeedbackManager.kt:35 | Definition: the manager the host provides as `LocalHapticFeedbackManager` is its remembered real manager. |
| HapticFeedback.HapticHost.Recompose | app/src/main/java/com/template/ui/haptic/HapticFeedbackManager.kt:31-34 | On a later composition, the remembered manager and its flag stay as they were, whatever `enabled` now is. |
| HapticFeedback.HapticHost.RecomposeSyncingFlag | app/src/main/java/com/template/ui/haptic/HapticFeedbackManager.kt:31-34 | In the corrected composable, the same manager's flag follows `enabled` on every composition. |
| HapticFeedback.DisablingAfterCreation | app/src/main/java/com/template/ui/haptic/HapticFeedbackManager.kt:27-36 | The composable is created enabled and then recomposed disabled. As written, a tab click then still vibrates (THUD). With the flag synced, it does nothing. |
| AppScaffold.TabScreen | app/src/main/java/com/template/ui/AppScaffold.kt:44-62 | The Home tab's root is the home screen. The Search tab's root is the search screen with an empty query. |
| AppScaffold.FirstMatching | app/src/main/java/com/template/ui/AppScaffold.kt:86 | `firstOrNull` yields nothing exactly when no tab's screen equals the top. Otherwise it yields the first tab whose screen does. |
| AppScaffold.SelectedTabFor | app/src/main/java/com/template/ui/AppScaffold.kt:82-88 | A tab is selected exactly when the top of the stack is the home screen or the empty-query search screen. The selected tab's root is that top. |
| AppScaffold.BottomBarVisible | app/src/main/java/com/template/ui/AppScaffold.kt:95 | Definition: the bottom bar is shown exactly while some tab is selected. |
| AppScaffold.IconFilled | app/src/main/java/com/template/ui/AppScaffold.kt:135 | Definition: a tab shows its filled icon exactly while it is the selected tab. |
| AppScaffold.TabRootSelectsTab | app/src/main/java/com/template/ui/AppScaffold.kt:133-137 | A tab's root screen on top selects that tab. Exactly that tab shows its filled icon. |
| AppScaffold.SearchWithQuerySelectsNoTab | app/src/main/java/com/template/ui/AppScaffold.kt:94-97 | A search screen opened with a non-empty query selects no tab, so the bottom bar is hidden. |
| AppScaffold.AppNavigator.constructor | app/src/main/java/com/template/ui/AppScaffold.kt:69 | The back stack starts at the home screen, so Home is selected and the bar is shown. |
| AppScaffold.AppNavigator.Top | app/src/main/java/com/template/ui/AppScaffold.kt:85 | Definition: the top record's screen, or none for an empty stack. |
| AppScaffold.AppNavigator.SelectedTab | app/src/main/java/com/template/ui/AppScaffold.kt:82-88 | Definition: the selected tab is `SelectedTabFor` of the top screen. |
| AppScaffold.AppNavigator.GoTo | app/src/main/java/com/template/ui/haptic/HapticNavigationEventListener.kt:9-11 | Going to a screen requests a Navigation haptic and pushes the screen. |
| AppScaffold.AppNavigator.ResetRoot | app/src/main/java/com/template/ui/AppScaffold.kt:130 | Resetting the root leaves the stack holding only that screen, and requests no haptic. |
| AppScaffold.AppNavigator.OnTabClick | app/src/main/java/com/template/ui/AppScaffold.kt:127-132 | A tap always requests a TabClick haptic. It resets the stack to the tab's root only when the tab was not already selected. Afterwards that tab is selected. |
| AppScaffold.AppNavigator.ClickSettings | app/src/main/java/com/template/screens/home/HomeScreen.kt:49-53 | The home screen's settings button pushes the settings screen, with a Navigation haptic. That hides the bottom bar. |
| AppScaffold.SettingsThenSearchTab | app/src/main/java/com/template/ui/AppScaffold.kt:127-132 | From the start, opening settings hides the bottom bar. A tap on Search then resets the stack to the search root, and the haptic requests are Navigation then TabClick. |

## Left out

- HTTP and JSON: `ITunesClient.search` is the nondeterministic `SearchOutcome`, and the request's `media` and `limit` parameters are left out. The test's real-response parsing is not modelled.
- Coroutine dispatch: a launched task's body is taken to start at launch, as under the unconfined test dispatcher, and a cancelled call resumes only through a later `ClientReturns` input. Three consequences are not modelled:
  - a task launched and superseded before it ever runs;
  - the reordering where `Search` (or a non-blank initial query) launches a task and `ClearQuery` arrives before the task's body runs. `ClearQuery` does not cancel the job, so that body would read the blank live query and send the client a blank term. `SearchSession.ClientNeverSeesBlankTerm` holds only under the start-at-launch assumption.
  - a superseded task's cancelled call resuming before the replacing task's body runs. This is the usual order under a first-in-first-out Main dispatcher, and also under the unconfined one, which resumes it inside `cancel()`. There the old task's `isSearching = false` lands before the new task's `isSearching = true`, so the loading row stays while the new search is in flight. In the model the old task stays in flight until after the new task has started.
- Real time: the 600 ms debounce is only the constant `SearchSession.SearchDebounceMs`. "The delay elapses" is an input that can happen only while the debounce job is live.
- Disposal of the presenter's coroutine scope, and the `Timber` logging.
- Compose rendering: layout, colours, animations, images, focus, text selection and hiding the keyboard. The `eventSink` is implied by routing events to the presenter.
- DataStore persistence: the stored preferences are fields and parameters.
- The numeric value of `hashCode`: `SearchUi.KeyHash` stands for it symbolically.
- Character classification: `Text.IsWhitespace` lists the JVM whitespace set by hand. There is no Unicode database.
- String and drawable resources: labels are parameters and icons are the flag `AppScaffold.IconFilled`.
- Platform APIs: the vibrator, edge-to-edge and the bar scrim colours. They appear as parameters or as returned `PlatformAction`s.
- Circuit's navigator: only the effects of `goTo` and `resetRoot` that the template relies on are stated, with `resetRoot`'s default options. Saved state, the back handler and overlay hosting are left out.
- Events delivered to a selection sheet after it has finished are excluded by the methods' preconditions. `SelectionSheets.SelectionSheet.Apply` is available only when the footer exists.
- Haptic requests in `AppScaffold` are recorded as kinds. Turning them into actions is `HapticFeedback.PerformHaptic`, which is not called from there.

## Findings

| source | as written | input that shows it | evidently intended | confidence | as-written member | corrected member |
|---|---|---|---|---|---|---|
| app/src/main/java/com/template/ui/haptic/HapticFeedbackManager.kt:31-34 | The manager is remembered under the view's haptic handle and the context only. Its flag is set once, from the `enabled` of the first composition. | Compose with `enabled = true`, then recompose with `enabled = false`, then tap a tab on Android 12 with a THUD-capable vibrator: the device still vibrates. | The provided manager follows `enabled`, so turning haptic feedback off takes effect. | not executed; medium (depends on the preference's value changing while the composition lives) | HapticFeedback.HapticHost.Recompose, HapticFeedback.DisablingAfterCreation | HapticFeedback.HapticHost.RecomposeSyncingFlag |
