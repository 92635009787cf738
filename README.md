# Radar signal analysis desktop shell — verified model

This project models, in Dafny, the parts of the radar signal analysis desktop application that carry its logic:

- **The Electron host process** (`electron/main.ts`, module `ElectronMain`). It starts and stops the Python analysis backend, owns the single main window, sends menu commands to that window, and controls pop-ups and in-place navigation.
  - Every function of the source and every event handler that changes state or calls out is a method of the class `Host`. The child process's stdout and stderr `data` listeners only log and are left out. The class has the fields `ready`, `pythonProcess`, `mainWindow` and `windowCount`, plus a ghost `trace` of the calls made into Electron, Node and the OS.
  - Each event-handler method is proved to perform exactly one step of a pure transition function `Step`. The helpers `StartPythonBackend`, `StopPythonBackend`, `CreateMainWindow` and `CreateMenu` perform `StartBackend`, `StopBackend`, `CreateWindow` and the lone `setApplicationMenu` call. `Step` works on a value snapshot `HostState`.
  - Safety over arbitrary event sequences is proved about `Run`, the fold of `Step`. It covers: at most one window, at most one kill of the backend, the menu installed at most once, and one `openExternal` per pop-up.
  - The class invariant `Valid` ties the fields to the trace.
- **The application store** (`src/store/index.ts`, module `AppStore`). Every action is a pure updater on the record `AppState`. Each updater's contract names the one field it may change (`OnlyChanges`) and says what that field becomes. The zustand store is the class `Store`, whose methods replace its `state` with the updater's result.
- **The data-management page** (`src/pages/DataManagement.tsx`, module `DataManagement`). It covers:
  - the file filter (name search plus status selector);
  - the per-status counts on the statistics cards;
  - the status tags;
  - the optional numeric cells;
  - the enablement of the row and bulk buttons.
- **The settings page** (`src/pages/Settings.tsx`, module `SettingsPage`). It covers:
  - the default settings against the bounds of the number inputs and the options of the selectors;
  - the form as the class `SettingsForm`, whose save, reset and change handlers drive the `hasUnsavedChanges` flag.

Inputs the program takes from its environment become parameters:
- `Config`: `NODE_ENV === 'development'`, the platform, `process.resourcesPath` and `__dirname`.
- The result of `spawn` (`SpawnOutcome`).
- Window ids.
- The origin `new URL(url).origin` computes, or `None` when the URL constructor throws.
- The timestamps the store's mock data took from the clock at load time (`LoadStamps`).

Two behaviours of the code are worth stating, because a reader might expect otherwise:

- Starting the backend has no guard against a second spawn. `startPythonBackend` assigns the new handle over any existing one (`electron/main.ts:18-22`). It is reached only from the ready callback, which runs once, so `LifecycleSafety` still proves at most one spawn per run, and none in development.
- The navigation check does not deny every navigation in production. It lets through navigations to the dev-server origin `http://localhost:3000`, and in development it cancels nothing (`electron/main.ts:249`).

## Model

| member | source | states |
|---|---|---|
| ElectronMain.StartBackendBehaviour | electron/main.ts:10-38 | In development nothing happens. In production one spawn of `python <resourcesPath>/backend/main.py` is issued and its handle replaces `pythonProcess`, with no guard and no kill of the old handle. When spawn throws, the reference keeps its value. Starting never kills. |
| ElectronMain.StopBackendIdempotent | electron/main.ts:41-46 | A stop with a live handle issues exactly one kill of that handle and clears the reference. A stop with no handle is a no-op. Two consecutive stops issue at most one kill. |
| ElectronMain.BackendCloseChangesNothing | electron/main.ts:32-34 | The backend's `close` listener changes no state and makes no call: no respawn, and the handle is not cleared. |
| ElectronMain.FailedSpawnKeepsHandle | electron/main.ts:18-34 | When `spawn` returns a handle but the process then fails to start, the handle is still stored. The asynchronous `'error'` event has no listener and changes nothing, so a later stop kills that handle. |
| ElectronMain.ShutdownTriggersMeet | electron/main.ts:227-237 | `window-all-closed` stops then quits except on darwin, where it does nothing. `before-quit` always stops. In either order the two kill the backend at most once and leave no handle. |
| ElectronMain.CreateWindowHidden | electron/main.ts:49-82 | The new main window is hidden, 1200×800 minimum, with Node integration off and isolation and web security on. It loads the dev server with developer tools in development and `<dir>/../dist/index.html` otherwise. `ready-to-show` makes it visible. |
| ElectronMain.ShownOnlyOnReadyToShow | electron/main.ts:76-82 | No event other than `ready-to-show` makes a hidden or absent main window visible. |
| ElectronMain.ReadyToShowOnce | electron/main.ts:76-82 | The `ready-to-show` listener is registered with `once`. After it has run for the current window, a further `ready-to-show` changes nothing, even after the user has toggled the developer tools. |
| ElectronMain.WindowLifecycle | electron/main.ts:219-223 | `closed` clears `mainWindow` and the window count. `activate` creates a window only when the app is ready and no window is open, and never touches the backend. |
| ElectronMain.MenuCommandsDispatch | electron/main.ts:102-205 | Each command item sends exactly its own channel to the current window, or nothing when there is none, and changes no state. Quit issues only `app.quit`. |
| ElectronMain.ChannelsDistinct | electron/main.ts:102-205 | The five command items use five distinct channels. |
| ElectronMain.ZoomSteps | electron/main.ts:171-193 | "Actual size" sets the zoom level to 0. Zoom in raises the level by one half-step and zoom out lowers it by one, so in then out restores the window. Without a window neither does anything. |
| ElectronMain.PopupsDenied | electron/main.ts:89-93 | A window-open request is denied and its URL passed to `openExternal`. A `new-window` event is prevented and forwarded the same way. Neither changes state. |
| ElectronMain.NavigationPolicy | electron/main.ts:246-251 | Navigation is cancelled iff the parsed origin differs from `http://localhost:3000` and the app is not in development. In development nothing is cancelled, and an unparsable URL is never cancelled. |
| ElectronMain.WillNavigateEffects | electron/main.ts:246-251 | The `will-navigate` listener calls `preventDefault` exactly when the navigation check cancels, and changes no state. |
| ElectronMain.StepKills | electron/main.ts:41-46 | A handler issues one kill if it stops a live backend, and none otherwise. |
| ElectronMain.StepSpawns | electron/main.ts:213-218 | Only the first ready callback spawns, and only in production. |
| ElectronMain.StepMenuInstalls | electron/main.ts:209-216 | Only the first ready callback installs the application menu. |
| ElectronMain.StepOpenExternals | electron/main.ts:240-244 | Each pop-up request leads to one `openExternal` call, and no other event calls it. |
| ElectronMain.StepPreservesInvariants | electron/main.ts:5-7 | Every handler keeps two invariants. First, `mainWindow` is set exactly when one window is open. Second, the calls made agree with the references: every kill consumed a spawned handle, there is at most one spawn, and the menu is installed once. |
| ElectronMain.RunPreservesInvariants | electron/main.ts:213-253 | Any sequence of events keeps both invariants. |
| ElectronMain.LifecycleSafety | electron/main.ts:213-237 | From process start, over every event sequence, at most one main window is open, the backend is spawned at most once and killed at most once (neither in development), and the menu is installed at most once. |
| ElectronMain.PopupsForwardedOnce | electron/main.ts:240-244 | Over any event sequence, the number of `openExternal` calls equals the number of pop-up requests. |
| ElectronMain.RunPair | electron/main.ts:227-237 | Handling two events in a row is the first step followed by the second, with their calls concatenated. |
| ElectronMain.Host.constructor | electron/main.ts:5-7 | At module load both references are null, nothing has been called, and the invariant holds. |
| ElectronMain.Host.StartPythonBackend | electron/main.ts:10-38 | Performs `StartBackend`: the new references and the calls appended to the trace. |
| ElectronMain.Host.StopPythonBackend | electron/main.ts:41-46 | Performs `StopBackend`. |
| ElectronMain.Host.CreateMainWindow | electron/main.ts:49-94 | Performs `CreateWindow`: the new window replaces `mainWindow`, the window count goes up, and the page load is issued. |
| ElectronMain.Host.CreateMenu | electron/main.ts:97-211 | Installs the application menu and changes no reference. |
| ElectronMain.Host.OnAppReady | electron/main.ts:214-218 | Creates the window, installs the menu and starts the backend, in that order, once. Keeps the invariant. |
| ElectronMain.Host.OnActivate | electron/main.ts:219-223 | Creates a window only when none is open. Keeps the invariant. |
| ElectronMain.Host.OnReadyToShow | electron/main.ts:76-82 | The first time for each window, shows it and opens developer tools in development. Later calls do nothing. Keeps the invariant. |
| ElectronMain.Host.OnClosed | electron/main.ts:85-87 | Clears `mainWindow`. Keeps the invariant. |
| ElectronMain.Host.OnWindowAllClosed | electron/main.ts:227-232 | Off darwin, stops the backend and quits. Keeps the invariant. |
| ElectronMain.Host.OnBeforeQuit | electron/main.ts:235-237 | Stops the backend. Keeps the invariant. |
| ElectronMain.Host.OnBackendClose | electron/main.ts:32-34 | Changes nothing and makes no call. |
| ElectronMain.Host.OnBackendError | electron/main.ts:20-34 | The child process's `'error'` event reaches no listener of this code, so it changes nothing and makes no call. |
| ElectronMain.Host.OnMenuClick | electron/main.ts:105-203 | Performs the clicked item's action on the current window. Keeps the invariant. |
| ElectronMain.Host.OnWindowOpen | electron/main.ts:90-93 | Always returns deny, after passing the URL to `openExternal`. |
| ElectronMain.Host.OnNewWindow | electron/main.ts:241-244 | Always prevents the event and passes the URL to `openExternal`. |
| ElectronMain.Host.OnWillNavigate | electron/main.ts:246-251 | Returns whether `preventDefault` was called, which is exactly `NavigationCancelled`. |
| AppStore.ToggleSidebar | src/store/index.ts:150-155 | Negates `isCollapsed`, keeps `activeMenuItem`, and changes no other field. |
| AppStore.ToggleSidebarInvolutive | src/store/index.ts:150-155 | Toggling twice gives back the state. |
| AppStore.SetActiveMenuItem | src/store/index.ts:157-162 | Sets `activeMenuItem`, keeps `isCollapsed`, and changes no other field. |
| AppStore.SetHomepageData | src/store/index.ts:165 | Sets the homepage data and changes no other field. |
| AppStore.UpdateSystemStatus | src/store/index.ts:167-172 | Replaces only the system status inside the homepage data. Null homepage data stays null. No other field changes. |
| AppStore.AddRecentRecord | src/store/index.ts:174-179 | The new record comes first, followed by at most four of the previous records, so the length is min(old + 1, 5). Null homepage data stays null. The other homepage fields and the other state fields are unchanged. |
| AppStore.PushRecordsKeepsNewest | src/store/index.ts:174-179 | After one or more additions, the history is the added records, newest first, then the old history, cut to five. |
| AppStore.AddRecentRecordsPushes | src/store/index.ts:174-179 | Repeated additions change only the history list inside the homepage data, and do nothing without homepage data. |
| AppStore.HistoryKeepsNewestFive | src/store/index.ts:174-179 | After one or more additions, or after none when the stored history already has at most five records, the history holds the newest five records in order. Nothing else in the state changes, and without homepage data nothing is recorded. Adding no records leaves the state unchanged, so a longer list installed by `setHomepageData` stays as it is until the first addition cuts it. |
| AppStore.SetSignalData | src/store/index.ts:182 | Sets the signal data and changes no other field. |
| AppStore.MergeClustering | src/store/index.ts:184-186 | Each key present in the patch takes the patch's value. Each absent key keeps its value. |
| AppStore.MergeRecognition | src/store/index.ts:188-190 | Each key present in the patch takes the patch's value. Each absent key keeps its value. |
| AppStore.MergeClusteringLaws | src/store/index.ts:184-186 | Applying the same patch twice equals applying it once. An empty patch changes nothing. Two patches in a row act as one patch, with the later patch's keys taking precedence. |
| AppStore.MergeRecognitionLaws | src/store/index.ts:188-190 | The same three laws for recognition parameters. |
| AppStore.UpdateClusteringParams | src/store/index.ts:184-186 | Merges the patch into the clustering parameters and changes no other field. |
| AppStore.UpdateRecognitionParams | src/store/index.ts:188-190 | Merges the patch into the recognition parameters and changes no other field. |
| AppStore.ParameterUpdatesIdempotent | src/store/index.ts:184-190 | Repeating a parameter update with the same patch changes nothing more. |
| AppStore.SetProcessingResult | src/store/index.ts:192 | Sets the processing result and changes no other field. |
| AppStore.SetLoading | src/store/index.ts:195 | Sets `isLoading` and changes no other field. |
| AppStore.SetError | src/store/index.ts:197 | Sets `error` to the given value (null included) and changes no other field. |
| AppStore.ClearError | src/store/index.ts:199 | Sets `error` to null and changes no other field. |
| AppStore.ErrorActions | src/store/index.ts:197-199 | Clearing after setting an error equals clearing. Clearing is idempotent. Setting null equals clearing. |
| AppStore.InitializeApp | src/store/index.ts:202-209 | Restores the homepage data the store was created with and changes no other field. |
| AppStore.InitializeAppRestoresHomepage | src/store/index.ts:202-209 | Re-initialising is idempotent, and on the initial state it changes nothing. |
| AppStore.InitialStateValues | src/store/index.ts:137-147 | Initially the sidebar is expanded on `'home'`, the parameters are the defaults (0.5, 0.3, 5) and (0.6, 0.4, 0.8), there is no signal data and no result, the store is not loading, and there is no error. The homepage holds three records and four quick actions. |
| AppStore.Store.constructor | src/store/index.ts:134-148 | The store starts in the initial state. |
| AppStore.Store.ToggleSidebarAction | src/store/index.ts:150-155 | Replaces the state with `ToggleSidebar`'s result. |
| AppStore.Store.SetActiveMenuItemAction | src/store/index.ts:157-162 | Replaces the state with `SetActiveMenuItem`'s result. |
| AppStore.Store.SetHomepageDataAction | src/store/index.ts:165 | Replaces the state with `SetHomepageData`'s result. |
| AppStore.Store.UpdateSystemStatusAction | src/store/index.ts:167-172 | Replaces the state with `UpdateSystemStatus`'s result. |
| AppStore.Store.AddRecentRecordAction | src/store/index.ts:174-179 | Replaces the state with `AddRecentRecord`'s result. |
| AppStore.Store.SetSignalDataAction | src/store/index.ts:182 | Replaces the state with `SetSignalData`'s result. |
| AppStore.Store.UpdateClusteringParamsAction | src/store/index.ts:184-186 | Replaces the state with `UpdateClusteringParams`'s result. |
| AppStore.Store.UpdateRecognitionParamsAction | src/store/index.ts:188-190 | Replaces the state with `UpdateRecognitionParams`'s result. |
| AppStore.Store.SetProcessingResultAction | src/store/index.ts:192 | Replaces the state with `SetProcessingResult`'s result. |
| AppStore.Store.SetLoadingAction | src/store/index.ts:195 | Replaces the state with `SetLoading`'s result. |
| AppStore.Store.SetErrorAction | src/store/index.ts:197 | Replaces the state with `SetError`'s result. |
| AppStore.Store.ClearErrorAction | src/store/index.ts:199 | Replaces the state with `ClearError`'s result. |
| AppStore.Store.InitializeAppAction | src/store/index.ts:202-209 | Replaces the state with `InitializeApp`'s result for the store's own load-time data. |
| DataManagement.LowerChar | src/pages/DataManagement.tsx:191 | Lower-cases exactly the ASCII capitals and leaves every other character alone. |
| DataManagement.Lower | src/pages/DataManagement.tsx:191 | Lower-cases a string character by character and keeps its length. |
| DataManagement.IncludesOccurs | src/pages/DataManagement.tsx:191 | `includes` holds iff the searched text occurs at some position of the name. |
| DataManagement.IncludesEmpty | src/pages/DataManagement.tsx:191 | The empty search occurs in every name. |
| DataManagement.FilteredData | src/pages/DataManagement.tsx:190-194 | The filtered list is no longer than the input, and every file in it is from the input and matches. |
| DataManagement.FilterMembership | src/pages/DataManagement.tsx:190-194 | A file is shown iff it is in the list and its lower-cased name contains the lower-cased search and its status is selected (or the selector is `'all'`). |
| DataManagement.FilterKeepsOrder | src/pages/DataManagement.tsx:190-194 | The filtered list is an order-preserving subsequence of the input. |
| DataManagement.FilterCount | src/pages/DataManagement.tsx:190-194 | The number of rows shown is the number of files that match. |
| DataManagement.NoFilterShowsAll | src/pages/DataManagement.tsx:190-194 | With an empty search and `'all'`, the whole list is shown unchanged. |
| DataManagement.UnknownStatusShowsNothing | src/pages/DataManagement.tsx:192 | A selector value that is neither `'all'` nor a status lets no file through. |
| DataManagement.StatusCountsPartition | src/pages/DataManagement.tsx:234-251 | The processed, pending and failed cards add up to the total card. |
| DataManagement.StatusFilterMatchesCard | src/pages/DataManagement.tsx:239-251 | Selecting one status with an empty search shows as many rows as that status's card counts. |
| DataManagement.MockDataCounts | src/pages/DataManagement.tsx:29-80 | The page's list of files gives 5 in total: 3 processed, 1 pending and 1 failed. |
| DataManagement.StatusConfig | src/pages/DataManagement.tsx:106-113 | A status is processed iff its tag is green 已处理, pending iff orange 待处理, and error iff red 处理失败. |
| DataManagement.StatusTagsDistinct | src/pages/DataManagement.tsx:107-111 | Different statuses get different colours and different texts. |
| DataManagement.RenderNumber | src/pages/DataManagement.tsx:120-132 | A cell is a dash iff the value is undefined or 0. Otherwise the cell shows the value with its unit. |
| DataManagement.SignalCountCell | src/pages/DataManagement.tsx:120 | The signal count shows a dash iff it is undefined or 0. |
| DataManagement.SuccessRateCell | src/pages/DataManagement.tsx:126 | The success rate shows a dash iff it is undefined or 0. Otherwise it shows the rate with `%`. |
| DataManagement.ProcessingTimeCell | src/pages/DataManagement.tsx:132 | The processing time shows a dash iff it is undefined or 0. Otherwise it shows the time with `s`. |
| DataManagement.RowActionsFor | src/pages/DataManagement.tsx:137-164 | View and export are enabled iff the file is processed. Delete is always enabled. |
| DataManagement.ViewableRowsAreProcessed | src/pages/DataManagement.tsx:143 | The number of rows with view enabled equals the processed card's count. |
| DataManagement.BulkActionsEnabled | src/pages/DataManagement.tsx:215-227 | Bulk export and bulk delete are enabled iff some row is selected. |
| SettingsPage.BoundsOf | src/pages/Settings.tsx:90-263 | Each number input's declared `[min, max]`: the epsilons [0, 2], `minPts` [1, 20], the weights and threshold [0, 1], the concurrent tasks [1, 16], the auto-save interval [60, 3600], the chart refresh rate [50, 1000] and the display points [100, 10000]. Every minimum is below its maximum. |
| SettingsPage.DefaultsWithinBounds | src/pages/Settings.tsx:37-53 | Every default fills its input and lies within the input's min/max. |
| SettingsPage.DefaultsAreOptions | src/pages/Settings.tsx:223-286 | The default log level `'info'` and theme `'light'` are among the selector options. |
| SettingsPage.ValidatesIffAllFilled | src/pages/Settings.tsx:85-263 | Validation passes iff no number input is empty, since the `required` rules are the only rules. |
| SettingsPage.DefaultsValidate | src/pages/Settings.tsx:37-53 | The defaults pass validation. |
| SettingsPage.SettingsForm.constructor | src/pages/Settings.tsx:33-34 | The form starts with the defaults and no unsaved changes. |
| SettingsPage.SettingsForm.HandleSave | src/pages/Settings.tsx:63-69 | On passing validation the flag is cleared and the values become the saved ones. On failing validation nothing changes. The values are never altered. |
| SettingsPage.SettingsForm.HandleReset | src/pages/Settings.tsx:71-74 | Every field returns to its default and the flag is set. |
| SettingsPage.SettingsForm.HandleFormChange | src/pages/Settings.tsx:76-78 | The form takes the edited values and the flag is set. |
| SettingsPage.SettingsForm.SaveDisabled | src/pages/Settings.tsx:416 | The save button is disabled iff there are no unsaved changes, and then the form holds what was last saved. |
| SettingsPage.SettingsForm.WarningShown | src/pages/Settings.tsx:430-438 | The unsaved-changes warning is shown exactly when the save button is enabled. |

## Left out

- ElectronMain.StartBackendBehaviour: a spawn failure is modelled as a synchronous throw (`SpawnThrew`) or as a later `'error'` event (`BackendError`) that changes nothing. When Node emits `'error'` on a child process with no listener, the main process gets an uncaught exception; what Electron then does (a dialog, or termination) is not modelled.
- `main.js` is the compiled form of `electron/main.ts` and has the same logic. Only the TypeScript is modelled.
- Real Electron, Node and OS behaviour is opaque:
  - `BrowserWindow`, `spawn`, `kill`, `shell.openExternal` and `Menu.buildFromTemplate` appear only as entries of the call trace;
  - the child process's own run, and its stdout and stderr listeners, are not modelled;
  - `console` logging is not modelled.
- The menu template's labels, accelerators and separators are not modelled. That includes the `CmdOrCtrl+R` accelerator used by two items, a conflict Electron resolves. Only the click handlers are modelled.
- ElectronMain.ZoomSteps: zoom is kept in integer half-steps, not floating point. `getZoomLevel() || 0` is the stored level, because a window's level is never undefined in the model. A new window starts at level 0. Electron keeps zoom per origin, so a window that `activate` recreates at the same origin inherits the old level; that is not modelled.
- `path.join` is modelled as plain concatenation with `/`. Path normalisation (`..` folding, platform separators) is not modelled.
- `new URL(url).origin` is an input to the navigation event (`None` when the constructor throws). URL parsing itself is not modelled. A throwing constructor raises an uncaught exception in the main process; the model only captures that `preventDefault` is not reached, not what Electron then does.
- Whether Electron still emits the deprecated `new-window` event depends on its version. The model treats it as an event that may arrive.
- `BrowserWindow.getAllWindows()` is modelled as the count of windows this code creates. Windows opened by other means are not modelled, because the pop-up handlers deny them.
- The asynchrony of `app.whenReady()` and of the form's `validateFields()` promise is collapsed into single steps.
- zustand's `set` and its devtools middleware are collapsed into a whole-state replacement.
- Numbers from the TypeScript types are `real`, or `int` where the source only ever holds whole numbers. NaN and the float formatting of `toFixed(1)` and `toString()` are not modelled. A shown cell carries the value and its unit.
- `Partial<T>` patches are Option fields. A key explicitly set to `undefined`, which overwrites the stored value, is not modelled.
- `toLowerCase` is modelled on ASCII letters only. Unicode case mapping is not modelled.
- The mock data's `Date.now()` timestamps are inputs (`LoadStamps`) taken once at load time, so `initializeApp` restores exactly the data the store was created with.
- The Settings page's `form.setFieldsValue` does not fire `onValuesChange`, so reset sets the flag itself, as the source does. The widgets' clamping of typed numbers into the input bounds is not modelled. Validation checks only the `required` rules, which are the only rules the source declares.
- The Settings page's system status panel and the tab layout are presentation only. SettingsPage.SettingsForm.WarningShown says when the warning is rendered; the user closing the alert is not modelled.
- The data-management page's upload modal, date-range picker and pagination are presentation only.
- `src/pages/Home.tsx`, `src/pages/SignalAnalysis.tsx`, `src/components/Layout.tsx` and `src/App.tsx` are presentation files and are not part of this model. So are `api/app.ts` (server wiring) and `vite.config.ts` (build configuration).
