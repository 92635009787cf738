/**
 * The Electron host process (electron/main.ts): it supervises the Python analysis
 * backend, owns the single main window, dispatches menu commands to that window and
 * polices navigation and pop-ups of every web content surface.
 *
 * The module has two layers.  The specification layer is a pure transition function
 * `Step` over a value snapshot `HostState` of the two module-level references
 * (`pythonProcess`, `mainWindow`) plus Electron's window count, producing the calls
 * the handlers make into Electron, Node and the OS (`Effect`).  The class `Host` is
 * the program itself: one method per function and event handler of the source,
 * updating its fields in place, each proved to perform exactly one `Step`.
 */
module ElectronMain {
  import opened Wrappers
  import opened Sequences

  // ---------------------------------------------------------------------------
  // Constants of the source
  // ---------------------------------------------------------------------------

  /** The dev-server URL loaded in development, and the one origin the navigation check names. */
  const DevServerUrl: string := "http://localhost:3000"
  const DevServerOrigin: string := "http://localhost:3000"
  /** The executable spawned for the backend. */
  const PythonExecutable: string := "python"
  /** The platform on which closing every window does not quit. */
  const Darwin: string := "darwin"
  const WindowTitle: string := "雷达信号分析软件"

  /** The five one-way command channels of the main window. */
  const ImportDataChannel: string := "menu-import-data"
  const ExportResultsChannel: string := "menu-export-results"
  const StartAnalysisChannel: string := "menu-start-analysis"
  const StopAnalysisChannel: string := "menu-stop-analysis"
  const AboutChannel: string := "menu-about"

  // ---------------------------------------------------------------------------
  // Data model
  // ---------------------------------------------------------------------------

  /**
   * What the process reads from its environment once, at load time:
   * `NODE_ENV === 'development'`, `process.platform`, `process.resourcesPath`
   * and `__dirname`.
   */
  datatype Config = Config(isDev: bool, platform: string, resourcesPath: string, appDir: string)

  /** An opaque child-process handle, as returned by `spawn`. */
  datatype ProcessHandle = ProcessHandle(pid: nat)

  /** What the opaque `spawn` call did: returned a handle, or threw. */
  datatype SpawnOutcome = Spawned(handle: ProcessHandle) | SpawnThrew

  type WindowId = nat

  datatype WebPreferences = WebPreferences(nodeIntegration: bool, contextIsolation: bool, webSecurity: bool)

  /**
   * A `BrowserWindow`: its construction options and the state the handlers change.
   * The zoom level is kept in half-steps: level = zoomHalfSteps / 2.
   * `readyToShowPending` says the `once('ready-to-show')` listener has not yet run.
   */
  datatype Window = Window(
    id: WindowId,
    width: nat, height: nat, minWidth: nat, minHeight: nat,
    title: string,
    prefs: WebPreferences,
    visible: bool,
    devToolsOpen: bool,
    zoomHalfSteps: int,
    readyToShowPending: bool)

  /** Calls the handlers make into Electron, Node and the OS, in order. */
  datatype Effect =
    | SpawnProcess(command: string, args: seq<string>)
    | KillProcess(handle: ProcessHandle)
    | LoadURL(window: WindowId, url: string)
    | LoadFile(window: WindowId, path: string)
    | SendToWindow(window: WindowId, channel: string)
    | ReloadWindow(window: WindowId)
    | ReloadIgnoringCache(window: WindowId)
    | SetApplicationMenu
    | OpenExternal(url: string)
    | DenyWindowOpen
    | PreventDefault
    | QuitApp

  /**
   * The process-wide state: whether the ready callback has run, the backend handle
   * (`pythonProcess`), the main window (`mainWindow`) and the number of open
   * `BrowserWindow`s that `BrowserWindow.getAllWindows()` reports.
   */
  datatype HostState = HostState(ready: bool, proc: Option<ProcessHandle>, win: Option<Window>, windowCount: nat)

  /** The state after a handler and the calls it made. */
  datatype Outcome = Outcome(next: HostState, effects: seq<Effect>)

  /** The leaves of the application menu. */
  datatype MenuItem =
    | ImportData | ExportResults | QuitItem
    | StartAnalysis | StopAnalysis
    | Reload | ForceReload | ToggleDevTools | ActualSize | ZoomIn | ZoomOut
    | About


  /**
   * The events the process reacts to.  `WillNavigate` carries the result of
   * `new URL(url).origin`, `None` when the URL constructor throws.
   * `BackendError` is the child process's asynchronous `'error'` event (the
   * executable is missing or not runnable), for which no listener is registered.
   */
  datatype Event =
    | AppReady(windowId: WindowId, spawn: SpawnOutcome)
    | Activate(windowId: WindowId)
    | ReadyToShow
    | WindowClosed
    | WindowAllClosed
    | BeforeQuit
    | BackendClosed(code: Option<int>)
    | BackendError
    | MenuClick(item: MenuItem)
    | WindowOpenRequest(url: string)
    | NewWindow(url: string)
    | WillNavigate(origin: Option<string>)

  // ---------------------------------------------------------------------------
  // Specification: one function per handler
  // ---------------------------------------------------------------------------

  /** Both references null, the ready callback not yet run. */
  const Initial: HostState := HostState(false, None, None, 0)

  /** `join(process.resourcesPath, 'backend', 'main.py')`. */
  function BackendScriptPath(resourcesPath: string): string {
    resourcesPath + "/backend/main.py"
  }

  /** `join(__dirname, '..', 'dist', 'index.html')`. */
  function PackagedIndexPath(appDir: string): string {
    appDir + "/../dist/index.html"
  }

  /** `startPythonBackend`: nothing in development; otherwise spawn, with no guard. */
  function StartBackend(c: Config, s: HostState, spawn: SpawnOutcome): Outcome {
    if c.isDev then Outcome(s, [])
    else
      var call := [SpawnProcess(PythonExecutable, [BackendScriptPath(c.resourcesPath)])];
      match spawn
      case Spawned(h) => Outcome(s.(proc := Some(h)), call)
      case SpawnThrew => Outcome(s, call)
  }

  /** `stopPythonBackend`. */
  function StopBackend(s: HostState): Outcome {
    match s.proc
    case Some(h) => Outcome(s.(proc := None), [KillProcess(h)])
    case None => Outcome(s, [])
  }

  /** The window `createMainWindow` constructs: hidden, with its size limits and security options. */
  function NewMainWindow(c: Config, id: WindowId): Window {
    Window(id, 1400, 900, 1200, 800, WindowTitle, WebPreferences(false, true, true),
           false, c.isDev, 0, true)
  }

  /** `createMainWindow`: a new window replaces `mainWindow` and starts loading. */
  function CreateWindow(c: Config, s: HostState, id: WindowId): Outcome {
    var load := if c.isDev then LoadURL(id, DevServerUrl) else LoadFile(id, PackagedIndexPath(c.appDir));
    Outcome(s.(win := Some(NewMainWindow(c, id)), windowCount := s.windowCount + 1), [load])
  }

  /** The channel a command item sends on; `None` for the items that act otherwise. */
  function Channel(item: MenuItem): Option<string> {
    match item
    case ImportData => Some(ImportDataChannel)
    case ExportResults => Some(ExportResultsChannel)
    case StartAnalysis => Some(StartAnalysisChannel)
    case StopAnalysis => Some(StopAnalysisChannel)
    case About => Some(AboutChannel)
    case _ => None
  }

  /** The `click` handler of a menu item. */
  function MenuClickOutcome(s: HostState, item: MenuItem): Outcome {
    if item == QuitItem then Outcome(s, [QuitApp])
    else if s.win.None? then Outcome(s, [])
    else
      var w := s.win.value;
      if item == Reload then Outcome(s, [ReloadWindow(w.id)])
      else if item == ForceReload then Outcome(s, [ReloadIgnoringCache(w.id)])
      else if item == ToggleDevTools then Outcome(s.(win := Some(w.(devToolsOpen := !w.devToolsOpen))), [])
      else if item == ActualSize then Outcome(s.(win := Some(w.(zoomHalfSteps := 0))), [])
      else if item == ZoomIn then Outcome(s.(win := Some(w.(zoomHalfSteps := w.zoomHalfSteps + 1))), [])
      else if item == ZoomOut then Outcome(s.(win := Some(w.(zoomHalfSteps := w.zoomHalfSteps - 1))), [])
      else Outcome(s, [SendToWindow(w.id, Channel(item).GetOr(""))])
  }

  /** The `will-navigate` check: cancel when the origin is not the dev server and not in development. */
  predicate NavigationCancelled(isDev: bool, origin: Option<string>) {
    match origin
    case None => false
    case Some(o) => o != DevServerOrigin && !isDev
  }

  /** One event handled from state `s`. */
  function Step(c: Config, s: HostState, e: Event): Outcome {
    match e
    case AppReady(id, spawn) =>
      if s.ready then Outcome(s, [])
      else
        var w := CreateWindow(c, s.(ready := true), id);
        var b := StartBackend(c, w.next, spawn);
        Outcome(b.next, w.effects + [SetApplicationMenu] + b.effects)
    case Activate(id) =>
      if s.ready && s.windowCount == 0 then CreateWindow(c, s, id) else Outcome(s, [])
    case ReadyToShow =>
      if s.win.Some? && s.win.value.readyToShowPending then
        var w := s.win.value;
        Outcome(s.(win := Some(w.(visible := true, devToolsOpen := w.devToolsOpen || c.isDev,
                                  readyToShowPending := false))), [])
      else Outcome(s, [])
    case WindowClosed =>
      Outcome(s.(win := None, windowCount := if s.windowCount > 0 then s.windowCount - 1 else 0), [])
    case WindowAllClosed =>
      if c.platform != Darwin then
        var st := StopBackend(s);
        Outcome(st.next, st.effects + [QuitApp])
      else Outcome(s, [])
    case BeforeQuit => StopBackend(s)
    case BackendClosed(_) => Outcome(s, [])
    case BackendError => Outcome(s, [])
    case MenuClick(item) => MenuClickOutcome(s, item)
    case WindowOpenRequest(url) => Outcome(s, [OpenExternal(url), DenyWindowOpen])
    case NewWindow(url) => Outcome(s, [PreventDefault, OpenExternal(url)])
    case WillNavigate(origin) =>
      Outcome(s, if NavigationCancelled(c.isDev, origin) then [PreventDefault] else [])
  }

  /** A sequence of events handled one after the other. */
  function Run(c: Config, s: HostState, events: seq<Event>): Outcome
    decreases |events|
  {
    if events == [] then Outcome(s, [])
    else
      var o := Step(c, s, events[0]);
      var r := Run(c, o.next, events[1..]);
      Outcome(r.next, o.effects + r.effects)
  }

  // ---------------------------------------------------------------------------
  // Invariants and counts
  // ---------------------------------------------------------------------------

  predicate IsKill(e: Effect) { e.KillProcess? }
  predicate IsSpawn(e: Effect) { e.SpawnProcess? }
  predicate IsMenuInstall(e: Effect) { e.SetApplicationMenu? }
  predicate IsOpenExternal(e: Effect) { e.OpenExternal? }
  predicate IsPopupRequest(e: Event) { e.WindowOpenRequest? || e.NewWindow? }

  /**
   * The window invariant: `mainWindow` is set exactly when Electron has one open
   * window, and nothing exists before the ready callback.
   */
  predicate WindowsConsistent(s: HostState) {
    && s.windowCount == (if s.win.Some? then 1 else 0)
    && (!s.ready ==> s.win.None? && s.proc.None?)
  }

  /**
   * What the calls made so far (`trace`) say about `s`: every kill consumed a
   * spawned handle, the current handle is one not yet killed, at most one spawn
   * happened (none in development and none before ready), and the menu was
   * installed exactly once once ready.
   */
  predicate Accounted(c: Config, s: HostState, trace: seq<Effect>) {
    && Count(trace, IsKill) + (if s.proc.Some? then 1 else 0) <= Count(trace, IsSpawn)
    && Count(trace, IsSpawn) <= (if s.ready && !c.isDev then 1 else 0)
    && Count(trace, IsMenuInstall) == (if s.ready then 1 else 0)
  }

  /** The events whose handler calls `stopPythonBackend` under configuration `c`. */
  predicate StopsBackend(c: Config, e: Event) {
    e.BeforeQuit? || (e.WindowAllClosed? && c.platform != Darwin)
  }

  /** A handler kills the backend once if it stops a live one, and otherwise never. */
  lemma {:induction false} StepKills(c: Config, s: HostState, e: Event)
    ensures Count(Step(c, s, e).effects, IsKill) == if StopsBackend(c, e) && s.proc.Some? then 1 else 0
  {
    var effs := Step(c, s, e).effects;
    if StopsBackend(c, e) && s.proc.Some? {
      CountOne(effs, 0, IsKill);
    } else {
      CountNone(effs, IsKill);
    }
  }

  /** Only the first ready callback spawns, and only in production. */
  lemma {:induction false} StepSpawns(c: Config, s: HostState, e: Event)
    ensures Count(Step(c, s, e).effects, IsSpawn) == if e.AppReady? && !s.ready && !c.isDev then 1 else 0
  {
    var effs := Step(c, s, e).effects;
    if e.AppReady? && !s.ready && !c.isDev {
      CountOne(effs, 2, IsSpawn);
    } else {
      CountNone(effs, IsSpawn);
    }
  }

  /** Only the first ready callback installs the menu. */
  lemma {:induction false} StepMenuInstalls(c: Config, s: HostState, e: Event)
    ensures Count(Step(c, s, e).effects, IsMenuInstall) == if e.AppReady? && !s.ready then 1 else 0
  {
    var effs := Step(c, s, e).effects;
    if e.AppReady? && !s.ready {
      CountOne(effs, 1, IsMenuInstall);
    } else {
      CountNone(effs, IsMenuInstall);
    }
  }

  /** Each pop-up request calls `openExternal` once; no other handler calls it. */
  lemma {:induction false} StepOpenExternals(c: Config, s: HostState, e: Event)
    ensures Count(Step(c, s, e).effects, IsOpenExternal) == if IsPopupRequest(e) then 1 else 0
  {
    var effs := Step(c, s, e).effects;
    if e.WindowOpenRequest? {
      CountOne(effs, 0, IsOpenExternal);
    } else if e.NewWindow? {
      CountOne(effs, 1, IsOpenExternal);
    } else {
      CountNone(effs, IsOpenExternal);
    }
  }

  /** Every handler keeps both invariants. */
  lemma {:induction false} StepPreservesInvariants(c: Config, s: HostState, trace: seq<Effect>, e: Event)
    requires WindowsConsistent(s) && Accounted(c, s, trace)
    ensures WindowsConsistent(Step(c, s, e).next)
    ensures Accounted(c, Step(c, s, e).next, trace + Step(c, s, e).effects)
  {
    StepKeepsWindows(c, s, e);
    StepKeepsAccounted(c, s, trace, e);
  }

  /** Every handler keeps the window invariant. */
  lemma StepKeepsWindows(c: Config, s: HostState, e: Event)
    requires WindowsConsistent(s)
    ensures WindowsConsistent(Step(c, s, e).next)
  {
  }

  /** Every handler keeps the calls made in agreement with the references. */
  lemma {:induction false} StepKeepsAccounted(c: Config, s: HostState, trace: seq<Effect>, e: Event)
    requires WindowsConsistent(s) && Accounted(c, s, trace)
    ensures Accounted(c, Step(c, s, e).next, trace + Step(c, s, e).effects)
  {
    var o := Step(c, s, e);
    CountAppend(trace, o.effects, IsKill);
    CountAppend(trace, o.effects, IsSpawn);
    CountAppend(trace, o.effects, IsMenuInstall);
    StepKills(c, s, e);
    StepSpawns(c, s, e);
    StepMenuInstalls(c, s, e);
  }

  /** Any run keeps both invariants. */
  lemma {:induction false} RunPreservesInvariants(c: Config, s: HostState, trace: seq<Effect>, events: seq<Event>)
    requires WindowsConsistent(s) && Accounted(c, s, trace)
    ensures WindowsConsistent(Run(c, s, events).next)
    ensures Accounted(c, Run(c, s, events).next, trace + Run(c, s, events).effects)
    decreases |events|
  {
    if events != [] {
      var o := Step(c, s, events[0]);
      var r := Run(c, o.next, events[1..]);
      StepPreservesInvariants(c, s, trace, events[0]);
      RunPreservesInvariants(c, o.next, trace + o.effects, events[1..]);
      assert trace + o.effects + r.effects == trace + Run(c, s, events).effects;
    } else {
      assert trace + [] == trace;
    }
  }

  /**
   * Over every possible run of the process: at most one main window is open at any
   * time, the backend is spawned at most once and killed at most once (neither in
   * development), and the menu is installed at most once, whatever order the
   * shutdown triggers come in.
   */
  lemma {:induction false} LifecycleSafety(c: Config, events: seq<Event>)
    ensures Run(c, Initial, events).next.windowCount <= 1
    ensures Count(Run(c, Initial, events).effects, IsSpawn) <= 1
    ensures c.isDev ==> Count(Run(c, Initial, events).effects, IsSpawn) == 0
    ensures Count(Run(c, Initial, events).effects, IsKill) <= 1
    ensures c.isDev ==> Count(Run(c, Initial, events).effects, IsKill) == 0
    ensures Count(Run(c, Initial, events).effects, IsMenuInstall) <= 1
  {
    RunPreservesInvariants(c, Initial, [], events);
    assert [] + Run(c, Initial, events).effects == Run(c, Initial, events).effects;
  }

  /** Every pop-up request, of either kind, leads to exactly one `openExternal` call. */
  lemma {:induction false} PopupsForwardedOnce(c: Config, s: HostState, events: seq<Event>)
    ensures Count(Run(c, s, events).effects, IsOpenExternal) == Count(events, IsPopupRequest)
    decreases |events|
  {
    if events != [] {
      var o := Step(c, s, events[0]);
      var r := Run(c, o.next, events[1..]);
      assert Run(c, s, events).effects == o.effects + r.effects;
      PopupsForwardedOnce(c, o.next, events[1..]);
      CountAppend(o.effects, r.effects, IsOpenExternal);
      StepOpenExternals(c, s, events[0]);
    }
  }

  // ---------------------------------------------------------------------------
  // Properties of single handlers
  // ---------------------------------------------------------------------------

  /**
   * Starting the backend: in development nothing happens; in production one spawn
   * of `python <resourcesPath>/backend/main.py` is issued and its handle replaces
   * whatever `pythonProcess` held (the old one is not killed); when spawn throws
   * the reference keeps its previous value.
   */
  lemma StartBackendBehaviour(c: Config, s: HostState, spawn: SpawnOutcome)
    ensures c.isDev ==> StartBackend(c, s, spawn) == Outcome(s, [])
    ensures !c.isDev ==> StartBackend(c, s, spawn).effects
                           == [SpawnProcess("python", [c.resourcesPath + "/backend/main.py"])]
    ensures !c.isDev && spawn.Spawned? ==> StartBackend(c, s, spawn).next.proc == Some(spawn.handle)
    ensures spawn.SpawnThrew? ==> StartBackend(c, s, spawn).next == s
    ensures Count(StartBackend(c, s, spawn).effects, IsKill) == 0
  {
    CountNone(StartBackend(c, s, spawn).effects, IsKill);
  }

  /**
   * Stopping the backend: one kill of the current handle and the reference
   * cleared, or nothing at all when it is already null; so a second stop is a
   * no-op and two stops issue at most one kill.
   */
  lemma {:induction false} StopBackendIdempotent(s: HostState)
    ensures StopBackend(s).next.proc.None?
    ensures StopBackend(s).next == s.(proc := None)
    ensures StopBackend(StopBackend(s).next) == Outcome(StopBackend(s).next, [])
    ensures s.proc.Some? ==> StopBackend(s).effects == [KillProcess(s.proc.value)]
    ensures Count(StopBackend(s).effects + StopBackend(StopBackend(s).next).effects, IsKill)
            == (if s.proc.Some? then 1 else 0)
  {
    var first := StopBackend(s).effects;
    assert first + [] == first;
    if s.proc.Some? {
      CountOne(first, 0, IsKill);
    } else {
      CountNone(first, IsKill);
    }
  }

  /**
   * The two shutdown triggers: `window-all-closed` stops and quits except on
   * darwin, where it changes nothing; `before-quit` always stops.  In either order
   * they meet at one idempotent stop and kill the backend at most once.
   */
  lemma {:induction false} ShutdownTriggersMeet(c: Config, s: HostState)
    ensures c.platform == Darwin ==> Step(c, s, WindowAllClosed) == Outcome(s, [])
    ensures c.platform != Darwin ==>
              Step(c, s, WindowAllClosed).next == StopBackend(s).next &&
              Step(c, s, WindowAllClosed).effects == StopBackend(s).effects + [QuitApp]
    ensures Step(c, s, BeforeQuit) == StopBackend(s)
    ensures Count(Run(c, s, [WindowAllClosed, BeforeQuit]).effects, IsKill) <= 1
    ensures Count(Run(c, s, [BeforeQuit, WindowAllClosed]).effects, IsKill) <= 1
    ensures Run(c, s, [WindowAllClosed, BeforeQuit]).next.proc.None?
    ensures Run(c, s, [BeforeQuit, WindowAllClosed]).next.proc.None?
  {
    var a := Step(c, s, WindowAllClosed);
    var b := Step(c, s, BeforeQuit);
    RunPair(c, s, WindowAllClosed, BeforeQuit);
    RunPair(c, s, BeforeQuit, WindowAllClosed);
    StepKills(c, s, WindowAllClosed);
    StepKills(c, a.next, BeforeQuit);
    StepKills(c, s, BeforeQuit);
    StepKills(c, b.next, WindowAllClosed);
    CountAppend(a.effects, Step(c, a.next, BeforeQuit).effects, IsKill);
    CountAppend(b.effects, Step(c, b.next, WindowAllClosed).effects, IsKill);
  }

  lemma {:induction false} RunPair(c: Config, s: HostState, e1: Event, e2: Event)
    ensures var o1 := Step(c, s, e1);
            var o2 := Step(c, o1.next, e2);
            Run(c, s, [e1, e2]) == Outcome(o2.next, o1.effects + o2.effects)
  {
    var o1 := Step(c, s, e1);
    var o2 := Step(c, o1.next, e2);
    assert [e1, e2][1..] == [e2];
    assert [e2][1..] == [];
    assert o2.effects + [] == o2.effects;
    assert Run(c, o1.next, [e2]) == Outcome(o2.next, o2.effects);
  }

  /** The backend's `close` listener only logs: no respawn, and the handle is not cleared. */
  lemma BackendCloseChangesNothing(c: Config, s: HostState, code: Option<int>)
    ensures Step(c, s, BackendClosed(code)) == Outcome(s, [])
  {
  }

  /**
   * A spawn that fails asynchronously: `spawn` returned a handle, so it is
   * stored, and the later `'error'` event has no listener, so the handle to a
   * process that never ran stays in `pythonProcess` and a later stop kills it.
   */
  lemma {:induction false} FailedSpawnKeepsHandle(c: Config, s: HostState, h: ProcessHandle)
    requires !c.isDev
    ensures var started := StartBackend(c, s, Spawned(h)).next;
            && Step(c, started, BackendError) == Outcome(started, [])
            && started.proc == Some(h)
            && Step(c, started, BeforeQuit).effects == [KillProcess(h)]
  {
  }

  /**
   * `createMainWindow` installs a new hidden window of 1400x900 with a 1200x800
   * minimum, Node integration off and isolation and web security on, loading the
   * dev server in development (with developer tools) and the packaged page
   * otherwise.  `ready-to-show` is what makes it visible.
   */
  lemma CreateWindowHidden(c: Config, s: HostState, id: WindowId)
    ensures var w := CreateWindow(c, s, id).next.win.value;
            && !w.visible && w.id == id
            && w.minWidth == 1200 && w.minHeight == 800
            && w.prefs == WebPreferences(false, true, true)
            && w.devToolsOpen == c.isDev && w.zoomHalfSteps == 0
    ensures CreateWindow(c, s, id).effects ==
              (if c.isDev then [LoadURL(id, "http://localhost:3000")]
               else [LoadFile(id, c.appDir + "/../dist/index.html")])
    ensures var r := Step(c, CreateWindow(c, s, id).next, ReadyToShow).next.win.value;
            r.visible && r.devToolsOpen == c.isDev
  {
  }

  /**
   * The `ready-to-show` listener is registered with `once`: after it has run for
   * the current window, further `ready-to-show` events change nothing, so
   * developer tools the user closed stay closed.
   */
  lemma ReadyToShowOnce(c: Config, s: HostState)
    ensures var first := Step(c, s, ReadyToShow).next;
            Step(c, first, ReadyToShow) == Outcome(first, [])
    ensures var first := Step(c, s, ReadyToShow).next;
            var closed := MenuClickOutcome(first, ToggleDevTools).next;
            Step(c, closed, ReadyToShow) == Outcome(closed, [])
  {
  }

  /** A main window is only ever made visible by the `ready-to-show` event. */
  lemma ShownOnlyOnReadyToShow(c: Config, s: HostState, e: Event)
    requires !e.ReadyToShow?
    requires Step(c, s, e).next.win.Some? && Step(c, s, e).next.win.value.visible
    ensures s.win.Some? && s.win.value.visible
    ensures Step(c, s, e).next.win.value.id == s.win.value.id
  {
  }

  /**
   * `closed` clears `mainWindow`; `activate` creates a window only when Electron
   * reports none open, and never touches the backend.
   */
  lemma WindowLifecycle(c: Config, s: HostState, id: WindowId)
    requires WindowsConsistent(s)
    ensures Step(c, s, WindowClosed).next.win.None?
    ensures Step(c, s, WindowClosed).next.windowCount == 0
    ensures s.ready && s.win.None? ==> Step(c, s, Activate(id)).next.win.Some?
    ensures s.win.Some? || !s.ready ==> Step(c, s, Activate(id)) == Outcome(s, [])
    ensures Step(c, s, Activate(id)).next.proc == s.proc
    ensures Step(c, s, Activate(id)).next.windowCount <= 1
  {
  }

  /**
   * Every command item sends exactly its own channel to the current window, or
   * nothing when there is none, and changes no state; quit only quits.
   */
  lemma MenuCommandsDispatch(s: HostState, item: MenuItem)
    requires Channel(item).Some?
    ensures MenuClickOutcome(s, item).next == s
    ensures s.win.Some? ==> MenuClickOutcome(s, item).effects == [SendToWindow(s.win.value.id, Channel(item).value)]
    ensures s.win.None? ==> MenuClickOutcome(s, item).effects == []
    ensures MenuClickOutcome(s, QuitItem) == Outcome(s, [QuitApp])
  {
  }

  /** The five command items use five distinct channels, one per item. */
  lemma ChannelsDistinct(a: MenuItem, b: MenuItem)
    requires Channel(a).Some? && Channel(b).Some? && a != b
    ensures Channel(a).value != Channel(b).value
  {
  }

  /**
   * Zoom: "actual size" sets the level to 0, zoom in raises it and zoom out lowers
   * it by one half-step, so zooming in then out restores the window; without a
   * window they do nothing.
   */
  lemma ZoomSteps(s: HostState)
    ensures s.win.Some? ==> MenuClickOutcome(s, ActualSize).next.win.value.zoomHalfSteps == 0
    ensures s.win.Some? ==>
              MenuClickOutcome(s, ZoomIn).next.win.value.zoomHalfSteps == s.win.value.zoomHalfSteps + 1
    ensures s.win.Some? ==>
              MenuClickOutcome(s, ZoomOut).next.win.value.zoomHalfSteps == s.win.value.zoomHalfSteps - 1
    ensures MenuClickOutcome(MenuClickOutcome(s, ZoomIn).next, ZoomOut).next == s
    ensures s.win.None? ==> MenuClickOutcome(s, ZoomIn) == Outcome(s, [])
    ensures s.win.None? ==> MenuClickOutcome(s, ZoomOut) == Outcome(s, [])
  {
    ZoomInThenOut(s);
  }

  /** Zooming out undoes zooming in. */
  lemma ZoomInThenOut(s: HostState)
    ensures MenuClickOutcome(MenuClickOutcome(s, ZoomIn).next, ZoomOut).next == s
  {
    if s.win.Some? {
      var w := s.win.value;
      var up := s.(win := Some(w.(zoomHalfSteps := w.zoomHalfSteps + 1)));
      assert MenuClickOutcome(s, ZoomIn) == Outcome(up, []);
      assert w.(zoomHalfSteps := w.zoomHalfSteps + 1).(zoomHalfSteps := w.zoomHalfSteps) == w;
    }
  }

  /**
   * Pop-ups never open in the app: a window-open request is denied and its URL
   * handed to `openExternal`; a `new-window` event is prevented and its URL handed
   * to `openExternal`.  Neither changes state.
   */
  lemma PopupsDenied(c: Config, s: HostState, url: string)
    ensures Step(c, s, WindowOpenRequest(url)).next == s
    ensures DenyWindowOpen in Step(c, s, WindowOpenRequest(url)).effects
    ensures OpenExternal(url) in Step(c, s, WindowOpenRequest(url)).effects
    ensures Step(c, s, NewWindow(url)).next == s
    ensures PreventDefault in Step(c, s, NewWindow(url)).effects
    ensures OpenExternal(url) in Step(c, s, NewWindow(url)).effects
  {
  }

  /**
   * In-place navigation: in development nothing is cancelled; in production a
   * navigation is cancelled exactly when its origin parses and is not the dev
   * server's; a URL the parser rejects is never cancelled.
   */
  lemma NavigationPolicy(isDev: bool, origin: Option<string>)
    ensures isDev ==> !NavigationCancelled(isDev, origin)
    ensures !isDev && origin.Some? ==>
              (NavigationCancelled(isDev, origin) <==> origin.value != "http://localhost:3000")
    ensures origin.None? ==> !NavigationCancelled(isDev, origin)
  {
  }

  /** The navigation handler calls `preventDefault` exactly when the check cancels. */
  lemma WillNavigateEffects(c: Config, s: HostState, origin: Option<string>)
    ensures Step(c, s, WillNavigate(origin)).next == s
    ensures (PreventDefault in Step(c, s, WillNavigate(origin)).effects) <==> NavigationCancelled(c.isDev, origin)
  {
  }

  // ---------------------------------------------------------------------------
  // The program: module-level references updated in place
  // ---------------------------------------------------------------------------

  class Host {
    const config: Config
    var ready: bool
    var pythonProcess: Option<ProcessHandle>
    var mainWindow: Option<Window>
    var windowCount: nat
    /** Every call made into Electron, Node and the OS so far. */
    ghost var trace: seq<Effect>

    function State(): HostState
      reads this
    {
      HostState(ready, pythonProcess, mainWindow, windowCount)
    }

    ghost predicate Valid()
      reads this
    {
      WindowsConsistent(State()) && Accounted(config, State(), trace)
    }

    /** Module load: both references null. */
    constructor (config: Config)
      ensures this.config == config
      ensures State() == Initial && trace == []
      ensures Valid()
    {
      this.config := config;
      ready := false;
      pythonProcess := None;
      mainWindow := None;
      windowCount := 0;
      trace := [];
    }

    method StartPythonBackend(spawn: SpawnOutcome)
      modifies this
      ensures var o := StartBackend(config, old(State()), spawn);
              State() == o.next && trace == old(trace) + o.effects
    {
      if config.isDev {
        return;
      }
      trace := trace + [SpawnProcess(PythonExecutable, [BackendScriptPath(config.resourcesPath)])];
      match spawn {
        case Spawned(h) => pythonProcess := Some(h);
        case SpawnThrew =>
      }
    }

    method StopPythonBackend()
      modifies this
      ensures var o := StopBackend(old(State()));
              State() == o.next && trace == old(trace) + o.effects
    {
      if pythonProcess.Some? {
        trace := trace + [KillProcess(pythonProcess.value)];
        pythonProcess := None;
      }
    }

    method CreateMainWindow(id: WindowId)
      modifies this
      ensures var o := CreateWindow(config, old(State()), id);
              State() == o.next && trace == old(trace) + o.effects
    {
      mainWindow := Some(NewMainWindow(config, id));
      windowCount := windowCount + 1;
      if config.isDev {
        trace := trace + [LoadURL(id, DevServerUrl)];
      } else {
        trace := trace + [LoadFile(id, PackagedIndexPath(config.appDir))];
      }
    }

    method CreateMenu()
      modifies this
      ensures State() == old(State()) && trace == old(trace) + [SetApplicationMenu]
    {
      trace := trace + [SetApplicationMenu];
    }

    /** The `whenReady` callback. */
    method OnAppReady(id: WindowId, spawn: SpawnOutcome)
      requires Valid()
      modifies this
      ensures Valid()
      ensures var o := Step(config, old(State()), AppReady(id, spawn));
              State() == o.next && trace == old(trace) + o.effects
    {
      ghost var o := Step(config, State(), AppReady(id, spawn));
      StepPreservesInvariants(config, State(), trace, AppReady(id, spawn));
      if !ready {
        ready := true;
        CreateMainWindow(id);
        CreateMenu();
        StartPythonBackend(spawn);
      }
      assert trace == old(trace) + o.effects;
    }

    method OnActivate(id: WindowId)
      requires Valid()
      modifies this
      ensures Valid()
      ensures var o := Step(config, old(State()), Activate(id));
              State() == o.next && trace == old(trace) + o.effects
    {
      ghost var o := Step(config, State(), Activate(id));
      StepPreservesInvariants(config, State(), trace, Activate(id));
      if ready && windowCount == 0 {
        CreateMainWindow(id);
      }
      assert trace == old(trace) + o.effects;
    }

    method OnReadyToShow()
      requires Valid()
      modifies this
      ensures Valid()
      ensures var o := Step(config, old(State()), ReadyToShow);
              State() == o.next && trace == old(trace) + o.effects
    {
      ghost var o := Step(config, State(), ReadyToShow);
      StepPreservesInvariants(config, State(), trace, ReadyToShow);
      if mainWindow.Some? && mainWindow.value.readyToShowPending {
        var w := mainWindow.value;
        mainWindow := Some(w.(visible := true, devToolsOpen := w.devToolsOpen || config.isDev,
                              readyToShowPending := false));
      }
      assert trace == old(trace) + o.effects;
    }

    method OnClosed()
      requires Valid()
      modifies this
      ensures Valid()
      ensures var o := Step(config, old(State()), WindowClosed);
              State() == o.next && trace == old(trace) + o.effects
    {
      ghost var o := Step(config, State(), WindowClosed);
      StepPreservesInvariants(config, State(), trace, WindowClosed);
      if windowCount > 0 {
        windowCount := windowCount - 1;
      }
      mainWindow := None;
      assert trace == old(trace) + o.effects;
    }

    method OnWindowAllClosed()
      requires Valid()
      modifies this
      ensures Valid()
      ensures var o := Step(config, old(State()), WindowAllClosed);
              State() == o.next && trace == old(trace) + o.effects
    {
      ghost var o := Step(config, State(), WindowAllClosed);
      StepPreservesInvariants(config, State(), trace, WindowAllClosed);
      if config.platform != Darwin {
        StopAndQuit();
      } else {
        assert trace == trace + [];
      }
    }

    /** The non-darwin body of the `window-all-closed` listener: stop the backend, then `app.quit()`. */
    method StopAndQuit()
      modifies this
      ensures var o := StopBackend(old(State()));
              State() == o.next && trace == old(trace) + (o.effects + [QuitApp])
    {
      StopPythonBackend();
      trace := trace + [QuitApp];
    }

    method OnBeforeQuit()
      requires Valid()
      modifies this
      ensures Valid()
      ensures var o := Step(config, old(State()), BeforeQuit);
              State() == o.next && trace == old(trace) + o.effects
    {
      ghost var o := Step(config, State(), BeforeQuit);
      StepPreservesInvariants(config, State(), trace, BeforeQuit);
      StopPythonBackend();
      assert trace == old(trace) + o.effects;
    }

    /** The backend's `close` listener: it only logs. */
    method OnBackendClose(code: Option<int>)
      requires Valid()
      modifies this
      ensures Valid()
      ensures var o := Step(config, old(State()), BackendClosed(code));
              State() == o.next && trace == old(trace) + o.effects
    {
      assert trace == trace + [];
    }

    /** The child process's `'error'` event: no listener is registered, so nothing here changes. */
    method OnBackendError()
      requires Valid()
      modifies this
      ensures Valid()
      ensures var o := Step(config, old(State()), BackendError);
              State() == o.next && trace == old(trace) + o.effects
    {
      assert trace == trace + [];
    }

    method OnMenuClick(item: MenuItem)
      requires Valid()
      modifies this
      ensures Valid()
      ensures var o := Step(config, old(State()), MenuClick(item));
              State() == o.next && trace == old(trace) + o.effects
    {
      StepPreservesInvariants(config, State(), trace, MenuClick(item));
      ClickItem(item);
    }

    /** The `click` handler of `item`, run on the current window. */
    method ClickItem(item: MenuItem)
      modifies this
      ensures var o := MenuClickOutcome(old(State()), item);
              State() == o.next && trace == old(trace) + o.effects
    {
      if item == QuitItem {
        trace := trace + [QuitApp];
      } else if mainWindow.Some? {
        var w := mainWindow.value;
        if item == Reload {
          trace := trace + [ReloadWindow(w.id)];
        } else if item == ForceReload {
          trace := trace + [ReloadIgnoringCache(w.id)];
        } else if item == ToggleDevTools {
          mainWindow := Some(w.(devToolsOpen := !w.devToolsOpen));
        } else if item == ActualSize {
          mainWindow := Some(w.(zoomHalfSteps := 0));
        } else if item == ZoomIn {
          mainWindow := Some(w.(zoomHalfSteps := w.zoomHalfSteps + 1));
        } else if item == ZoomOut {
          mainWindow := Some(w.(zoomHalfSteps := w.zoomHalfSteps - 1));
        } else {
          trace := trace + [SendToWindow(w.id, Channel(item).GetOr(""))];
        }
      }
      assert trace == old(trace) + MenuClickOutcome(old(State()), item).effects;
    }

    /** The window-open handler of the main window's contents. */
    method OnWindowOpen(url: string) returns (deny: bool)
      requires Valid()
      modifies this
      ensures Valid() && deny
      ensures var o := Step(config, old(State()), WindowOpenRequest(url));
              State() == o.next && trace == old(trace) + o.effects
    {
      ghost var o := Step(config, State(), WindowOpenRequest(url));
      StepPreservesInvariants(config, State(), trace, WindowOpenRequest(url));
      trace := trace + [OpenExternal(url), DenyWindowOpen];
      deny := true;
    }

    /** The `new-window` listener every web contents gets. */
    method OnNewWindow(url: string) returns (prevented: bool)
      requires Valid()
      modifies this
      ensures Valid() && prevented
      ensures var o := Step(config, old(State()), NewWindow(url));
              State() == o.next && trace == old(trace) + o.effects
    {
      ghost var o := Step(config, State(), NewWindow(url));
      StepPreservesInvariants(config, State(), trace, NewWindow(url));
      trace := trace + [PreventDefault, OpenExternal(url)];
      prevented := true;
    }

    /** The `will-navigate` listener every web contents gets. */
    method OnWillNavigate(origin: Option<string>) returns (prevented: bool)
      requires Valid()
      modifies this
      ensures Valid()
      ensures prevented == NavigationCancelled(config.isDev, origin)
      ensures var o := Step(config, old(State()), WillNavigate(origin));
              State() == o.next && trace == old(trace) + o.effects
    {
      ghost var o := Step(config, State(), WillNavigate(origin));
      StepPreservesInvariants(config, State(), trace, WillNavigate(origin));
      prevented := false;
      if origin.Some? && origin.value != DevServerOrigin && !config.isDev {
        trace := trace + [PreventDefault];
        prevented := true;
      }
      assert trace == old(trace) + o.effects;
    }
  }
}
