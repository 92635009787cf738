/**
 * The data-management page (src/pages/DataManagement.tsx): the list of imported
 * data files, filtered by a file-name search and a status selector, the counts
 * shown on the statistics cards, the status tags, the optional numeric cells and
 * which buttons are enabled.
 */
module DataManagement {
  import opened Wrappers
  import opened Sequences

  /** The three-valued `status` union. */
  datatype FileStatus = Processed | Pending | Error

  /** The string each status has in the original union, which the status selector compares with. */
  function StatusKey(status: FileStatus): string {
    match status
    case Processed => "processed"
    case Pending => "pending"
    case Error => "error"
  }

  /** `DataFile`; the three optional numbers are `None` when undefined. */
  datatype DataFile = DataFile(
    id: string, fileName: string, fileSize: string, uploadTime: string, status: FileStatus,
    signalCount: Option<int>, successRate: Option<real>, processingTime: Option<real>)

  /** The value of the status selector that lets every status through. */
  const AllStatuses: string := "all"

  // ---------------------------------------------------------------------------
  // Search
  // ---------------------------------------------------------------------------

  /** Lower case on the ASCII letters. */
  function LowerChar(c: char): (d: char)
    ensures 'A' <= c <= 'Z' ==> d as int == c as int + 32
    ensures !('A' <= c <= 'Z') ==> d == c
  {
    if 'A' <= c <= 'Z' then (c as int + 32) as char else c
  }

  function Lower(s: string): (r: string)
    ensures |r| == |s|
    ensures forall i | 0 <= i < |s| :: r[i] == LowerChar(s[i])
  {
    if s == [] then [] else [LowerChar(s[0])] + Lower(s[1..])
  }

  predicate StartsWith(s: string, prefix: string) {
    |prefix| <= |s| && s[..|prefix|] == prefix
  }

  /** `s.includes(sub)`, by trying every start position from the left. */
  predicate Includes(s: string, sub: string)
    decreases |s|
  {
    StartsWith(s, sub) || (s != [] && Includes(s[1..], sub))
  }

  /** `sub` occurs in `s` starting at position `i`. */
  predicate OccursAt(s: string, sub: string, i: int) {
    0 <= i <= |s| - |sub| && s[i..i + |sub|] == sub
  }

  /** `Includes` holds exactly when `sub` occurs at some position of `s`. */
  lemma {:induction false} IncludesOccurs(s: string, sub: string)
    ensures Includes(s, sub) <==> exists i :: OccursAt(s, sub, i)
    decreases |s|
  {
    if StartsWith(s, sub) {
      assert OccursAt(s, sub, 0);
    } else if s == [] {
    } else {
      IncludesOccurs(s[1..], sub);
      if i :| OccursAt(s[1..], sub, i) {
        assert s[1..][i..i + |sub|] == s[i + 1..i + 1 + |sub|];
        assert OccursAt(s, sub, i + 1);
      }
      if i :| OccursAt(s, sub, i) && i > 0 {
        assert s[1..][i - 1..i - 1 + |sub|] == s[i..i + |sub|];
        assert OccursAt(s[1..], sub, i - 1);
      }
    }
  }

  /** The empty string occurs in every string, so an empty search matches every name. */
  lemma IncludesEmpty(s: string)
    ensures Includes(s, "")
  {
    assert StartsWith(s, "");
  }

  // ---------------------------------------------------------------------------
  // Filtering
  // ---------------------------------------------------------------------------

  /** The filter's test: the lower-cased name contains the lower-cased search, and the status is selected. */
  predicate Matches(file: DataFile, searchText: string, statusFilter: string) {
    && Includes(Lower(file.fileName), Lower(searchText))
    && (statusFilter == AllStatuses || StatusKey(file.status) == statusFilter)
  }

  /** `filteredData`: the files that match, in their original order. */
  function FilteredData(files: seq<DataFile>, searchText: string, statusFilter: string): (r: seq<DataFile>)
    ensures |r| <= |files|
    ensures forall f | f in r :: f in files && Matches(f, searchText, statusFilter)
  {
    if files == [] then []
    else if Matches(files[0], searchText, statusFilter) then [files[0]] + FilteredData(files[1..], searchText, statusFilter)
    else FilteredData(files[1..], searchText, statusFilter)
  }

  /** `xs` is `ys` with some elements left out and the order kept. */
  predicate SubsequenceOf<T(==)>(xs: seq<T>, ys: seq<T>)
    decreases |ys|
  {
    if xs == [] then true
    else if ys == [] then false
    else (xs[0] == ys[0] && SubsequenceOf(xs[1..], ys[1..])) || SubsequenceOf(xs, ys[1..])
  }

  /** A file is shown exactly when it is in the list and matches. */
  lemma {:induction false} FilterMembership(files: seq<DataFile>, searchText: string, statusFilter: string, f: DataFile)
    ensures f in FilteredData(files, searchText, statusFilter) <==> f in files && Matches(f, searchText, statusFilter)
  {
    if files != [] {
      FilterMembership(files[1..], searchText, statusFilter, f);
      assert f in files <==> f == files[0] || f in files[1..];
    }
  }

  /** The filtered list keeps the order of the input. */
  lemma {:induction false} FilterKeepsOrder(files: seq<DataFile>, searchText: string, statusFilter: string)
    ensures SubsequenceOf(FilteredData(files, searchText, statusFilter), files)
  {
    if files != [] {
      FilterKeepsOrder(files[1..], searchText, statusFilter);
      var r := FilteredData(files, searchText, statusFilter);
      var rest := FilteredData(files[1..], searchText, statusFilter);
      if Matches(files[0], searchText, statusFilter) {
        assert r[0] == files[0] && r[1..] == rest;
      } else if r != [] {
        assert r == rest;
      }
    }
  }

  /** The number of files shown is the number of files that match. */
  lemma {:induction false} FilterCount(files: seq<DataFile>, searchText: string, statusFilter: string)
    ensures |FilteredData(files, searchText, statusFilter)| == Count(files, f => Matches(f, searchText, statusFilter))
  {
    if files != [] {
      FilterCount(files[1..], searchText, statusFilter);
    }
  }

  /** With an empty search and `'all'` the whole list is shown. */
  lemma {:induction false} NoFilterShowsAll(files: seq<DataFile>)
    ensures FilteredData(files, "", AllStatuses) == files
  {
    if files != [] {
      IncludesEmpty(Lower(files[0].fileName));
      assert Lower("") == "";
      NoFilterShowsAll(files[1..]);
      assert files == [files[0]] + files[1..];
    }
  }

  /** A selector value that is neither `'all'` nor a status lets nothing through. */
  lemma {:induction false} UnknownStatusShowsNothing(files: seq<DataFile>, searchText: string, statusFilter: string)
    requires statusFilter != AllStatuses
    requires forall st: FileStatus :: StatusKey(st) != statusFilter
    ensures FilteredData(files, searchText, statusFilter) == []
  {
    if files != [] {
      assert StatusKey(files[0].status) != statusFilter;
      UnknownStatusShowsNothing(files[1..], searchText, statusFilter);
    }
  }

  // ---------------------------------------------------------------------------
  // Statistics cards
  // ---------------------------------------------------------------------------

  /** `files.filter(f => f.status === status).length`. */
  function CountStatus(files: seq<DataFile>, status: FileStatus): nat {
    Count(files, (f: DataFile) => f.status == status)
  }

  /** Every file has exactly one of the three statuses, so the three cards add up to the total card. */
  lemma {:induction false} StatusCountsPartition(files: seq<DataFile>)
    ensures CountStatus(files, Processed) + CountStatus(files, Pending) + CountStatus(files, Error) == |files|
  {
    if files != [] {
      StatusCountsPartition(files[1..]);
    }
  }

  /** Selecting one status with an empty search shows as many rows as that status's card counts. */
  lemma {:induction false} StatusFilterMatchesCard(files: seq<DataFile>, status: FileStatus)
    ensures |FilteredData(files, "", StatusKey(status))| == CountStatus(files, status)
  {
    if files != [] {
      IncludesEmpty(Lower(files[0].fileName));
      assert Lower("") == "";
      assert StatusKey(files[0].status) == StatusKey(status) <==> files[0].status == status;
      StatusFilterMatchesCard(files[1..], status);
    }
  }

  // ---------------------------------------------------------------------------
  // Status tags, cells and buttons
  // ---------------------------------------------------------------------------

  datatype StatusTag = StatusTag(color: string, text: string)

  /** `statusConfig[status]`: green 已处理, orange 待处理, red 处理失败. */
  function StatusConfig(status: FileStatus): (t: StatusTag)
    ensures status == Processed <==> t == StatusTag("green", "已处理")
    ensures status == Pending <==> t == StatusTag("orange", "待处理")
    ensures status == Error <==> t == StatusTag("red", "处理失败")
  {
    match status
    case Processed => StatusTag("green", "已处理")
    case Pending => StatusTag("orange", "待处理")
    case Error => StatusTag("red", "处理失败")
  }

  /** Different statuses get different colours and different texts. */
  lemma StatusTagsDistinct(a: FileStatus, b: FileStatus)
    ensures a != b ==> StatusConfig(a).color != StatusConfig(b).color
    ensures a != b ==> StatusConfig(a).text != StatusConfig(b).text
  {
  }

  /** A rendered numeric cell: a dash, or the number with its unit (`''`, `'%'` or `'s'`). */
  datatype Cell = Dash | Shown(value: real, unit: string)

  /** JavaScript truthiness of an optional number: `undefined` and `0` are falsy. */
  predicate Truthy(x: Option<real>) {
    x.Some? && x.value != 0.0
  }

  function RenderNumber(x: Option<real>, unit: string): (c: Cell)
    ensures c.Dash? <==> !Truthy(x)
    ensures c.Shown? ==> c.value == x.value && c.unit == unit
  {
    if Truthy(x) then Shown(x.value, unit) else Dash
  }

  function SignalCountCell(f: DataFile): (c: Cell)
    ensures c.Dash? <==> f.signalCount.None? || f.signalCount.value == 0
    ensures c.Shown? ==> c.value == f.signalCount.value as real && c.unit == ""
  {
    RenderNumber(if f.signalCount.Some? then Some(f.signalCount.value as real) else None, "")
  }

  function SuccessRateCell(f: DataFile): (c: Cell)
    ensures c.Dash? <==> f.successRate.None? || f.successRate.value == 0.0
    ensures c.Shown? ==> c.value == f.successRate.value && c.unit == "%"
  {
    RenderNumber(f.successRate, "%")
  }

  function ProcessingTimeCell(f: DataFile): (c: Cell)
    ensures c.Dash? <==> f.processingTime.None? || f.processingTime.value == 0.0
    ensures c.Shown? ==> c.value == f.processingTime.value && c.unit == "s"
  {
    RenderNumber(f.processingTime, "s")
  }

  datatype RowActions = RowActions(viewEnabled: bool, exportEnabled: bool, deleteEnabled: bool)

  /** The per-row buttons: view and export only for processed files, delete always. */
  function RowActionsFor(f: DataFile): (a: RowActions)
    ensures a.viewEnabled <==> f.status == Processed
    ensures a.exportEnabled <==> f.status == Processed
    ensures a.deleteEnabled
  {
    var processed := f.status == Processed;
    RowActions(processed, processed, true)
  }

  /** The number of rows whose view button is enabled is the processed card's count. */
  lemma {:induction false} ViewableRowsAreProcessed(files: seq<DataFile>)
    ensures Count(files, f => RowActionsFor(f).viewEnabled) == CountStatus(files, Processed)
  {
    if files != [] {
      ViewableRowsAreProcessed(files[1..]);
    }
  }

  /** The bulk export and bulk delete buttons: enabled exactly when some row is selected. */
  function BulkActionsEnabled(selectedRowKeys: seq<string>): (enabled: bool)
    ensures enabled <==> selectedRowKeys != []
  {
    |selectedRowKeys| != 0
  }

  // ---------------------------------------------------------------------------
  // The page's list
  // ---------------------------------------------------------------------------

  function MockDataFiles(): seq<DataFile> {
    [ DataFile("1", "radar_data_001.bin", "125.6 MB", "2024-01-15 14:30:25", Processed, Some(156), Some(94.2), Some(12.5)),
      DataFile("2", "radar_data_002.bin", "89.3 MB", "2024-01-15 13:15:10", Processed, Some(203), Some(91.8), Some(18.3)),
      DataFile("3", "radar_data_003.bin", "67.8 MB", "2024-01-15 12:45:33", Pending, None, None, None),
      DataFile("4", "radar_data_004.bin", "156.2 MB", "2024-01-15 11:20:15", Error, None, None, None),
      DataFile("5", "radar_data_005.bin", "98.7 MB", "2024-01-15 10:30:42", Processed, Some(89), Some(96.1), Some(8.7)) ]
  }

  /** The cards on the page's own list read 5 files: 3 processed, 1 pending, 1 failed. */
  lemma MockDataCounts()
    ensures |MockDataFiles()| == 5
    ensures CountStatus(MockDataFiles(), Processed) == 3
    ensures CountStatus(MockDataFiles(), Pending) == 1
    ensures CountStatus(MockDataFiles(), Error) == 1
  {
  }
}
