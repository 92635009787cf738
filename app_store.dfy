/**
 * The application state store (src/store/index.ts): one record holding the sidebar,
 * the homepage data, the analysis inputs and parameters, a loading flag and an
 * error message.  Every action is an updater from the current record to the next,
 * applied by `set`; here each updater is a pure function, the store is a class
 * whose single field the actions replace, and the lemmas say what each action
 * changes and what it leaves alone.
 */
module AppStore {
  import opened Wrappers

  // ---------------------------------------------------------------------------
  // Record shapes (src/types/index.ts)
  // ---------------------------------------------------------------------------

  datatype SystemStatus = SystemStatus(
    cpuUsage: real, memoryUsage: real, activeTasks: int, systemUptime: int, lastAnalysisTime: string)

  datatype RecentAnalysisRecord = RecentAnalysisRecord(
    id: string, analysisTime: string, signalCount: int, successRate: real, processingTime: real,
    fileName: string)

  datatype QuickAction = QuickAction(
    id: string, title: string, description: string, icon: string, route: string, color: Option<string>)

  datatype HomepageData = HomepageData(
    systemStatus: SystemStatus, recentRecords: seq<RecentAnalysisRecord>, quickActions: seq<QuickAction>)

  datatype SignalData = SignalData(
    frequency: seq<real>, pulseWidth: seq<real>, amplitude: seq<real>, levelDiff: seq<real>,
    azimuth: seq<real>, timestamp: seq<real>)

  datatype ClusteringParams = ClusteringParams(epsilonCF: real, epsilonPW: real, minPts: int)

  datatype RecognitionParams = RecognitionParams(paWeight: real, dtoaWeight: real, jointThreshold: real)

  datatype RadarSignal = RadarSignal(
    id: string, frequencyMhz: real, pulseWidthUs: real, priUs: real, doaDegree: real,
    confidence: real, signalType: string)

  datatype ProcessingResult = ProcessingResult(
    signals: seq<RadarSignal>, processingTime: real, sliceCount: int, currentSlice: int)

  datatype SidebarState = SidebarState(isCollapsed: bool, activeMenuItem: string)

  /** The store's state; `None` stands for `null`. */
  datatype AppState = AppState(
    sidebar: SidebarState,
    homepageData: Option<HomepageData>,
    signalData: Option<SignalData>,
    clusteringParams: ClusteringParams,
    recognitionParams: RecognitionParams,
    processingResult: Option<ProcessingResult>,
    isLoading: bool,
    error: Option<string>)

  /** `Partial<ClusteringParams>`: `None` is an absent key. */
  datatype ClusteringPatch = ClusteringPatch(epsilonCF: Option<real>, epsilonPW: Option<real>, minPts: Option<int>)

  /** `Partial<RecognitionParams>`: `None` is an absent key. */
  datatype RecognitionPatch = RecognitionPatch(
    paWeight: Option<real>, dtoaWeight: Option<real>, jointThreshold: Option<real>)

  /**
   * The timestamps the mock data took from the clock when the module was loaded:
   * now, and one, two and three hours earlier, as ISO strings.
   */
  datatype LoadStamps = LoadStamps(now: string, oneHourAgo: string, twoHoursAgo: string, threeHoursAgo: string)

  /** The fields of the state, for saying which one an action may change. */
  datatype Field = SidebarField | HomepageField | SignalField | ClusteringField
                 | RecognitionField | ResultField | LoadingField | ErrorField

  /** `r` agrees with `s` on every field but `f`. */
  predicate OnlyChanges(s: AppState, r: AppState, f: Field) {
    && (f != SidebarField ==> r.sidebar == s.sidebar)
    && (f != HomepageField ==> r.homepageData == s.homepageData)
    && (f != SignalField ==> r.signalData == s.signalData)
    && (f != ClusteringField ==> r.clusteringParams == s.clusteringParams)
    && (f != RecognitionField ==> r.recognitionParams == s.recognitionParams)
    && (f != ResultField ==> r.processingResult == s.processingResult)
    && (f != LoadingField ==> r.isLoading == s.isLoading)
    && (f != ErrorField ==> r.error == s.error)
  }

  // ---------------------------------------------------------------------------
  // Constants of the module
  // ---------------------------------------------------------------------------

  const DefaultClusteringParams: ClusteringParams := ClusteringParams(0.5, 0.3, 5)
  const DefaultRecognitionParams: RecognitionParams := RecognitionParams(0.6, 0.4, 0.8)
  /** The number of records `addRecentRecord` keeps. */
  const HistoryLength: nat := 5

  function MockSystemStatus(stamps: LoadStamps): SystemStatus {
    SystemStatus(45.2, 62.8, 3, 86400, stamps.now)
  }

  function MockRecentRecords(stamps: LoadStamps): seq<RecentAnalysisRecord> {
    [ RecentAnalysisRecord("1", stamps.oneHourAgo, 156, 94.2, 12.5, "radar_data_001.bin"),
      RecentAnalysisRecord("2", stamps.twoHoursAgo, 203, 91.8, 18.3, "radar_data_002.bin"),
      RecentAnalysisRecord("3", stamps.threeHoursAgo, 89, 96.1, 8.7, "radar_data_003.bin") ]
  }

  function QuickActions(): seq<QuickAction> {
    [ QuickAction("new-analysis", "开始新分析", "导入数据文件并开始信号分析", "Play", "/signal-analysis", Some("#1890ff")),
      QuickAction("import-data", "导入数据", "从本地文件导入雷达信号数据", "Upload", "/data-management", Some("#52c41a")),
      QuickAction("view-history", "查看历史", "浏览历史分析记录和结果", "History", "/data-management", Some("#faad14")),
      QuickAction("system-settings", "系统设置", "配置系统参数和偏好设置", "Settings", "/settings", Some("#722ed1")) ]
  }

  function MockHomepageData(stamps: LoadStamps): HomepageData {
    HomepageData(MockSystemStatus(stamps), MockRecentRecords(stamps), QuickActions())
  }

  /** The state the store is created with. */
  function InitialState(stamps: LoadStamps): AppState {
    AppState(SidebarState(false, "home"), Some(MockHomepageData(stamps)), None,
             DefaultClusteringParams, DefaultRecognitionParams, None, false, None)
  }

  // ---------------------------------------------------------------------------
  // Helpers on sequences
  // ---------------------------------------------------------------------------

  /** `xs.slice(0, n)`: the first `n` elements, or all of them when there are fewer. */
  function Take<T>(xs: seq<T>, n: nat): (r: seq<T>)
    ensures |r| == if |xs| <= n then |xs| else n
    ensures forall i | 0 <= i < |r| :: r[i] == xs[i]
  {
    if |xs| <= n then xs else xs[..n]
  }

  function Reversed<T>(xs: seq<T>): (r: seq<T>)
    ensures |r| == |xs|
  {
    if xs == [] then [] else Reversed(xs[1..]) + [xs[0]]
  }

  // ---------------------------------------------------------------------------
  // Actions
  // ---------------------------------------------------------------------------

  function ToggleSidebar(s: AppState): (r: AppState)
    ensures r.sidebar.isCollapsed == !s.sidebar.isCollapsed
    ensures r.sidebar.activeMenuItem == s.sidebar.activeMenuItem
    ensures OnlyChanges(s, r, SidebarField)
  {
    s.(sidebar := s.sidebar.(isCollapsed := !s.sidebar.isCollapsed))
  }

  function SetActiveMenuItem(s: AppState, menuId: string): (r: AppState)
    ensures r.sidebar.activeMenuItem == menuId
    ensures r.sidebar.isCollapsed == s.sidebar.isCollapsed
    ensures OnlyChanges(s, r, SidebarField)
  {
    s.(sidebar := s.sidebar.(activeMenuItem := menuId))
  }

  function SetHomepageData(s: AppState, data: HomepageData): (r: AppState)
    ensures r.homepageData == Some(data)
    ensures OnlyChanges(s, r, HomepageField)
  {
    s.(homepageData := Some(data))
  }

  function UpdateSystemStatus(s: AppState, status: SystemStatus): (r: AppState)
    ensures r.homepageData.Some? <==> s.homepageData.Some?
    ensures r.homepageData.Some? ==>
              && r.homepageData.value.systemStatus == status
              && r.homepageData.value.recentRecords == s.homepageData.value.recentRecords
              && r.homepageData.value.quickActions == s.homepageData.value.quickActions
    ensures OnlyChanges(s, r, HomepageField)
  {
    match s.homepageData
    case Some(h) => s.(homepageData := Some(h.(systemStatus := status)))
    case None => s.(homepageData := None)
  }

  /**
   * `addRecentRecord`: the record goes first and at most four of the previous
   * records follow, so the history never holds more than five; without homepage
   * data the action changes nothing.
   */
  function AddRecentRecord(s: AppState, record: RecentAnalysisRecord): (r: AppState)
    ensures r.homepageData.Some? <==> s.homepageData.Some?
    ensures r.homepageData.Some? ==>
              var before := s.homepageData.value.recentRecords;
              var after := r.homepageData.value.recentRecords;
              && |after| == (if |before| < HistoryLength then |before| + 1 else HistoryLength)
              && after[0] == record
              && after[1..] == Take(before, HistoryLength - 1)
              && r.homepageData.value.systemStatus == s.homepageData.value.systemStatus
              && r.homepageData.value.quickActions == s.homepageData.value.quickActions
    ensures OnlyChanges(s, r, HomepageField)
  {
    match s.homepageData
    case Some(h) => s.(homepageData := Some(h.(recentRecords := PushRecord(h.recentRecords, record))))
    case None => s.(homepageData := None)
  }

  /** The history after one `addRecentRecord`: the new record, then at most four of the old ones. */
  function PushRecord(records: seq<RecentAnalysisRecord>, record: RecentAnalysisRecord): seq<RecentAnalysisRecord> {
    [record] + Take(records, HistoryLength - 1)
  }

  function SetSignalData(s: AppState, data: SignalData): (r: AppState)
    ensures r.signalData == Some(data)
    ensures OnlyChanges(s, r, SignalField)
  {
    s.(signalData := Some(data))
  }

  /** `{ ...params, ...patch }` for clustering parameters. */
  function MergeClustering(p: ClusteringParams, patch: ClusteringPatch): (r: ClusteringParams)
    ensures patch.epsilonCF.Some? ==> r.epsilonCF == patch.epsilonCF.value
    ensures patch.epsilonCF.None? ==> r.epsilonCF == p.epsilonCF
    ensures patch.epsilonPW.Some? ==> r.epsilonPW == patch.epsilonPW.value
    ensures patch.epsilonPW.None? ==> r.epsilonPW == p.epsilonPW
    ensures patch.minPts.Some? ==> r.minPts == patch.minPts.value
    ensures patch.minPts.None? ==> r.minPts == p.minPts
  {
    ClusteringParams(patch.epsilonCF.GetOr(p.epsilonCF), patch.epsilonPW.GetOr(p.epsilonPW),
                     patch.minPts.GetOr(p.minPts))
  }

  /** `{ ...params, ...patch }` for recognition parameters. */
  function MergeRecognition(p: RecognitionParams, patch: RecognitionPatch): (r: RecognitionParams)
    ensures patch.paWeight.Some? ==> r.paWeight == patch.paWeight.value
    ensures patch.paWeight.None? ==> r.paWeight == p.paWeight
    ensures patch.dtoaWeight.Some? ==> r.dtoaWeight == patch.dtoaWeight.value
    ensures patch.dtoaWeight.None? ==> r.dtoaWeight == p.dtoaWeight
    ensures patch.jointThreshold.Some? ==> r.jointThreshold == patch.jointThreshold.value
    ensures patch.jointThreshold.None? ==> r.jointThreshold == p.jointThreshold
  {
    RecognitionParams(patch.paWeight.GetOr(p.paWeight), patch.dtoaWeight.GetOr(p.dtoaWeight),
                      patch.jointThreshold.GetOr(p.jointThreshold))
  }

  function UpdateClusteringParams(s: AppState, patch: ClusteringPatch): (r: AppState)
    ensures r.clusteringParams == MergeClustering(s.clusteringParams, patch)
    ensures OnlyChanges(s, r, ClusteringField)
  {
    s.(clusteringParams := MergeClustering(s.clusteringParams, patch))
  }

  function UpdateRecognitionParams(s: AppState, patch: RecognitionPatch): (r: AppState)
    ensures r.recognitionParams == MergeRecognition(s.recognitionParams, patch)
    ensures OnlyChanges(s, r, RecognitionField)
  {
    s.(recognitionParams := MergeRecognition(s.recognitionParams, patch))
  }

  function SetProcessingResult(s: AppState, result: ProcessingResult): (r: AppState)
    ensures r.processingResult == Some(result)
    ensures OnlyChanges(s, r, ResultField)
  {
    s.(processingResult := Some(result))
  }

  function SetLoading(s: AppState, loading: bool): (r: AppState)
    ensures r.isLoading == loading
    ensures OnlyChanges(s, r, LoadingField)
  {
    s.(isLoading := loading)
  }

  function SetError(s: AppState, error: Option<string>): (r: AppState)
    ensures r.error == error
    ensures OnlyChanges(s, r, ErrorField)
  {
    s.(error := error)
  }

  function ClearError(s: AppState): (r: AppState)
    ensures r.error.None?
    ensures OnlyChanges(s, r, ErrorField)
  {
    s.(error := None)
  }

  /** `initializeApp`: the homepage data goes back to the mock data the module was loaded with. */
  function InitializeApp(s: AppState, stamps: LoadStamps): (r: AppState)
    ensures r.homepageData == InitialState(stamps).homepageData
    ensures OnlyChanges(s, r, HomepageField)
  {
    s.(homepageData := Some(MockHomepageData(stamps)))
  }

  // ---------------------------------------------------------------------------
  // Properties relating actions
  // ---------------------------------------------------------------------------

  /**
   * The initial state: sidebar expanded on `'home'`, default clustering
   * (0.5, 0.3, 5) and recognition (0.6, 0.4, 0.8) parameters, no signal data, no
   * result, not loading, no error, and homepage data with three records and four
   * quick actions.
   */
  lemma InitialStateValues(stamps: LoadStamps)
    ensures var s := InitialState(stamps);
            && s.sidebar == SidebarState(false, "home")
            && s.clusteringParams == ClusteringParams(0.5, 0.3, 5)
            && s.recognitionParams == RecognitionParams(0.6, 0.4, 0.8)
            && s.signalData.None? && s.processingResult.None?
            && !s.isLoading && s.error.None?
            && s.homepageData.Some?
            && |s.homepageData.value.recentRecords| == 3
            && |s.homepageData.value.quickActions| == 4
  {
  }

  /** Toggling the sidebar twice gives back the state. */
  lemma ToggleSidebarInvolutive(s: AppState)
    ensures ToggleSidebar(ToggleSidebar(s)) == s
  {
  }

  /**
   * After `initializeApp`, whatever happened before, the state is the initial one
   * on the homepage data and unchanged elsewhere; doing it twice is doing it once.
   */
  lemma InitializeAppRestoresHomepage(s: AppState, stamps: LoadStamps)
    ensures InitializeApp(s, stamps).homepageData == InitialState(stamps).homepageData
    ensures InitializeApp(InitializeApp(s, stamps), stamps) == InitializeApp(s, stamps)
    ensures InitializeApp(InitialState(stamps), stamps) == InitialState(stamps)
  {
  }

  /** Setting and clearing the error: clear after set gives no error, and clear is idempotent. */
  lemma ErrorActions(s: AppState, e: string)
    ensures SetError(s, Some(e)).error == Some(e)
    ensures ClearError(SetError(s, Some(e))) == ClearError(s)
    ensures ClearError(ClearError(s)) == ClearError(s)
    ensures SetError(s, None) == ClearError(s)
  {
  }

  /**
   * The partial merges: applying a patch twice is applying it once, an empty
   * patch changes nothing, and two patches in a row act as one patch whose keys
   * come from the second where it has them.
   */
  lemma MergeClusteringLaws(p: ClusteringParams, a: ClusteringPatch, b: ClusteringPatch)
    ensures MergeClustering(MergeClustering(p, a), a) == MergeClustering(p, a)
    ensures MergeClustering(p, ClusteringPatch(None, None, None)) == p
    ensures MergeClustering(MergeClustering(p, a), b)
            == MergeClustering(p, ClusteringPatch(
                 if b.epsilonCF.Some? then b.epsilonCF else a.epsilonCF,
                 if b.epsilonPW.Some? then b.epsilonPW else a.epsilonPW,
                 if b.minPts.Some? then b.minPts else a.minPts))
  {
  }

  lemma MergeRecognitionLaws(p: RecognitionParams, a: RecognitionPatch, b: RecognitionPatch)
    ensures MergeRecognition(MergeRecognition(p, a), a) == MergeRecognition(p, a)
    ensures MergeRecognition(p, RecognitionPatch(None, None, None)) == p
    ensures MergeRecognition(MergeRecognition(p, a), b)
            == MergeRecognition(p, RecognitionPatch(
                 if b.paWeight.Some? then b.paWeight else a.paWeight,
                 if b.dtoaWeight.Some? then b.dtoaWeight else a.dtoaWeight,
                 if b.jointThreshold.Some? then b.jointThreshold else a.jointThreshold))
  {
  }

  /** The parameter updates are idempotent on the whole state. */
  lemma ParameterUpdatesIdempotent(s: AppState, c: ClusteringPatch, g: RecognitionPatch)
    ensures UpdateClusteringParams(UpdateClusteringParams(s, c), c) == UpdateClusteringParams(s, c)
    ensures UpdateRecognitionParams(UpdateRecognitionParams(s, g), g) == UpdateRecognitionParams(s, g)
  {
    MergeClusteringLaws(s.clusteringParams, c, c);
    MergeRecognitionLaws(s.recognitionParams, g, g);
  }

  /** Adding records one after the other, the first of `records` first. */
  function AddRecentRecords(s: AppState, records: seq<RecentAnalysisRecord>): AppState
    decreases |records|
  {
    if records == [] then s else AddRecentRecords(AddRecentRecord(s, records[0]), records[1..])
  }

  lemma {:induction false} TakeOfTake<T>(x: seq<T>, y: seq<T>, k: nat, n: nat)
    requires |x| + k >= n
    ensures Take(x + Take(y, k), n) == Take(x + y, n)
  {
    var l := Take(x + Take(y, k), n);
    var m := Take(x + y, n);
    assert |l| == |m|;
    forall i | 0 <= i < |l|
      ensures l[i] == m[i]
    {
      if i >= |x| {
        assert (x + Take(y, k))[i] == Take(y, k)[i - |x|];
      }
    }
  }

  /** The history after `addRecentRecord` of each of `records` in turn. */
  function PushRecords(history: seq<RecentAnalysisRecord>, records: seq<RecentAnalysisRecord>): seq<RecentAnalysisRecord>
    decreases |records|
  {
    if records == [] then history else PushRecords(PushRecord(history, records[0]), records[1..])
  }

  /** One or more pushes keep the newest five: the pushed records newest first, then the old history. */
  lemma {:induction false} PushRecordsKeepsNewest(history: seq<RecentAnalysisRecord>, records: seq<RecentAnalysisRecord>)
    requires records != [] || |history| <= HistoryLength
    ensures PushRecords(history, records) == Take(Reversed(records) + history, HistoryLength)
    decreases |records|
  {
    if records == [] {
      assert Reversed(records) + history == history;
    } else {
      var rest := Reversed(records[1..]);
      var h1 := PushRecord(history, records[0]);
      PushRecordsKeepsNewest(h1, records[1..]);
      assert Reversed(records) == rest + [records[0]];
      assert rest + h1 == (rest + [records[0]]) + Take(history, HistoryLength - 1);
      TakeOfTake(rest + [records[0]], history, HistoryLength - 1, HistoryLength);
    }
  }

  lemma {:induction false} AddRecentRecordsPushes(s: AppState, records: seq<RecentAnalysisRecord>)
    ensures s.homepageData.None? ==> AddRecentRecords(s, records) == s
    ensures s.homepageData.Some? ==>
              AddRecentRecords(s, records)
              == s.(homepageData := Some(s.homepageData.value.(
                      recentRecords := PushRecords(s.homepageData.value.recentRecords, records))))
    decreases |records|
  {
    if records != [] {
      AddRecentRecordsPushes(AddRecentRecord(s, records[0]), records[1..]);
    }
  }

  /**
   * The history is the newest five: after adding one or more `records` to
   * homepage data, the list is the added records newest first followed by the
   * old list, cut to five, and nothing else in the state has changed.  Adding
   * no records leaves the state as it is, and without homepage data nothing is
   * recorded.
   */
  lemma HistoryKeepsNewestFive(s: AppState, records: seq<RecentAnalysisRecord>)
    ensures s.homepageData.None? ==> AddRecentRecords(s, records) == s
    ensures records == [] ==> AddRecentRecords(s, records) == s
    ensures s.homepageData.Some? ==> AddRecentRecords(s, records).homepageData.Some?
    ensures s.homepageData.Some? && (records != [] || |s.homepageData.value.recentRecords| <= HistoryLength) ==>
              var h := AddRecentRecords(s, records).homepageData.value;
              && h.recentRecords == Take(Reversed(records) + s.homepageData.value.recentRecords, HistoryLength)
              && |h.recentRecords| <= HistoryLength
              && h.systemStatus == s.homepageData.value.systemStatus
              && h.quickActions == s.homepageData.value.quickActions
    ensures OnlyChanges(s, AddRecentRecords(s, records), HomepageField)
  {
    AddRecentRecordsPushes(s, records);
    if s.homepageData.Some? && (records != [] || |s.homepageData.value.recentRecords| <= HistoryLength) {
      PushRecordsKeepsNewest(s.homepageData.value.recentRecords, records);
    }
  }

  // ---------------------------------------------------------------------------
  // The store
  // ---------------------------------------------------------------------------

  /** The zustand store: `set` replaces the whole state with the updater's result. */
  class Store {
    const stamps: LoadStamps
    var state: AppState

    constructor (stamps: LoadStamps)
      ensures this.stamps == stamps && state == InitialState(stamps)
    {
      this.stamps := stamps;
      state := InitialState(stamps);
    }

    method ToggleSidebarAction()
      modifies this
      ensures state == ToggleSidebar(old(state))
    {
      state := ToggleSidebar(state);
    }

    method SetActiveMenuItemAction(menuId: string)
      modifies this
      ensures state == SetActiveMenuItem(old(state), menuId)
    {
      state := SetActiveMenuItem(state, menuId);
    }

    method SetHomepageDataAction(data: HomepageData)
      modifies this
      ensures state == SetHomepageData(old(state), data)
    {
      state := SetHomepageData(state, data);
    }

    method UpdateSystemStatusAction(status: SystemStatus)
      modifies this
      ensures state == UpdateSystemStatus(old(state), status)
    {
      state := UpdateSystemStatus(state, status);
    }

    method AddRecentRecordAction(record: RecentAnalysisRecord)
      modifies this
      ensures state == AddRecentRecord(old(state), record)
    {
      state := AddRecentRecord(state, record);
    }

    method SetSignalDataAction(data: SignalData)
      modifies this
      ensures state == SetSignalData(old(state), data)
    {
      state := SetSignalData(state, data);
    }

    method UpdateClusteringParamsAction(patch: ClusteringPatch)
      modifies this
      ensures state == UpdateClusteringParams(old(state), patch)
    {
      state := UpdateClusteringParams(state, patch);
    }

    method UpdateRecognitionParamsAction(patch: RecognitionPatch)
      modifies this
      ensures state == UpdateRecognitionParams(old(state), patch)
    {
      state := UpdateRecognitionParams(state, patch);
    }

    method SetProcessingResultAction(result: ProcessingResult)
      modifies this
      ensures state == SetProcessingResult(old(state), result)
    {
      state := SetProcessingResult(state, result);
    }

    method SetLoadingAction(loading: bool)
      modifies this
      ensures state == SetLoading(old(state), loading)
    {
      state := SetLoading(state, loading);
    }

    method SetErrorAction(error: Option<string>)
      modifies this
      ensures state == SetError(old(state), error)
    {
      state := SetError(state, error);
    }

    method ClearErrorAction()
      modifies this
      ensures state == ClearError(old(state))
    {
      state := ClearError(state);
    }

    method InitializeAppAction()
      modifies this
      ensures state == InitializeApp(old(state), stamps)
    {
      state := InitializeApp(state, stamps);
    }
  }
}
