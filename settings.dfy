/**
 * The settings page (src/pages/Settings.tsx): the default settings, the bounds of
 * the number inputs and the options of the two selectors, and the form whose
 * "unsaved changes" flag the save, reset and change handlers drive.
 */
module SettingsPage {
  import opened Wrappers

  /**
   * `SystemSettings` as the form holds it.  A number input can be cleared, so
   * each number is `None` when the input is empty.
   */
  datatype SystemSettings = SystemSettings(
    defaultEpsilonCF: Option<real>,
    defaultEpsilonPW: Option<real>,
    defaultMinPts: Option<real>,
    defaultPAWeight: Option<real>,
    defaultDTOAWeight: Option<real>,
    defaultJointThreshold: Option<real>,
    maxConcurrentTasks: Option<real>,
    autoSaveInterval: Option<real>,
    logLevel: string,
    enableRealTimeProcessing: bool,
    enableAutoBackup: bool,
    chartRefreshRate: Option<real>,
    maxDisplayPoints: Option<real>,
    enableAnimations: bool,
    theme: string)

  /** The ten number inputs of the form. */
  datatype NumericField =
    | EpsilonCF | EpsilonPW | MinPts | PAWeight | DTOAWeight | JointThreshold
    | MaxConcurrentTasks | AutoSaveInterval | ChartRefreshRate | MaxDisplayPoints

  function ValueOf(s: SystemSettings, f: NumericField): Option<real> {
    match f
    case EpsilonCF => s.defaultEpsilonCF
    case EpsilonPW => s.defaultEpsilonPW
    case MinPts => s.defaultMinPts
    case PAWeight => s.defaultPAWeight
    case DTOAWeight => s.defaultDTOAWeight
    case JointThreshold => s.defaultJointThreshold
    case MaxConcurrentTasks => s.maxConcurrentTasks
    case AutoSaveInterval => s.autoSaveInterval
    case ChartRefreshRate => s.chartRefreshRate
    case MaxDisplayPoints => s.maxDisplayPoints
  }

  datatype Bounds = Bounds(min: real, max: real)

  /** The `min` and `max` of each number input. */
  function BoundsOf(f: NumericField): (b: Bounds)
    ensures f == EpsilonCF || f == EpsilonPW ==> b == Bounds(0.0, 2.0)
    ensures f == MinPts ==> b == Bounds(1.0, 20.0)
    ensures f == PAWeight || f == DTOAWeight || f == JointThreshold ==> b == Bounds(0.0, 1.0)
    ensures f == MaxConcurrentTasks ==> b == Bounds(1.0, 16.0)
    ensures f == AutoSaveInterval ==> b == Bounds(60.0, 3600.0)
    ensures f == ChartRefreshRate ==> b == Bounds(50.0, 1000.0)
    ensures f == MaxDisplayPoints ==> b == Bounds(100.0, 10000.0)
    ensures b.min < b.max
  {
    match f
    case EpsilonCF => Bounds(0.0, 2.0)
    case EpsilonPW => Bounds(0.0, 2.0)
    case MinPts => Bounds(1.0, 20.0)
    case PAWeight => Bounds(0.0, 1.0)
    case DTOAWeight => Bounds(0.0, 1.0)
    case JointThreshold => Bounds(0.0, 1.0)
    case MaxConcurrentTasks => Bounds(1.0, 16.0)
    case AutoSaveInterval => Bounds(60.0, 3600.0)
    case ChartRefreshRate => Bounds(50.0, 1000.0)
    case MaxDisplayPoints => Bounds(100.0, 10000.0)
  }

  const LogLevelOptions: seq<string> := ["debug", "info", "warn", "error"]
  const ThemeOptions: seq<string> := ["light", "dark", "auto"]

  /** `defaultSettings`, which is also the form's `initialValues`. */
  const DefaultSettings: SystemSettings := SystemSettings(
    Some(0.5), Some(0.3), Some(5.0), Some(0.6), Some(0.4), Some(0.8),
    Some(4.0), Some(300.0), "info", true, true, Some(100.0), Some(1000.0), true, "light")

  /** Every default fills its input and lies within the input's bounds. */
  lemma DefaultsWithinBounds(f: NumericField)
    ensures ValueOf(DefaultSettings, f).Some?
    ensures BoundsOf(f).min <= ValueOf(DefaultSettings, f).value <= BoundsOf(f).max
  {
  }

  /** The default log level and theme are among their selectors' options. */
  lemma DefaultsAreOptions()
    ensures DefaultSettings.logLevel in LogLevelOptions
    ensures DefaultSettings.theme in ThemeOptions
  {
  }

  /**
   * `validateFields`: every number input carries a `required` rule, and nothing
   * else is checked, so validation passes exactly when no number input is empty.
   */
  predicate Validates(s: SystemSettings) {
    && s.defaultEpsilonCF.Some? && s.defaultEpsilonPW.Some? && s.defaultMinPts.Some?
    && s.defaultPAWeight.Some? && s.defaultDTOAWeight.Some? && s.defaultJointThreshold.Some?
    && s.maxConcurrentTasks.Some? && s.autoSaveInterval.Some?
    && s.chartRefreshRate.Some? && s.maxDisplayPoints.Some?
  }

  lemma ValidatesIffAllFilled(s: SystemSettings)
    ensures Validates(s) <==> forall f: NumericField :: ValueOf(s, f).Some?
  {
    if !Validates(s) {
      if s.defaultEpsilonCF.None? { assert ValueOf(s, EpsilonCF).None?; }
      else if s.defaultEpsilonPW.None? { assert ValueOf(s, EpsilonPW).None?; }
      else if s.defaultMinPts.None? { assert ValueOf(s, MinPts).None?; }
      else if s.defaultPAWeight.None? { assert ValueOf(s, PAWeight).None?; }
      else if s.defaultDTOAWeight.None? { assert ValueOf(s, DTOAWeight).None?; }
      else if s.defaultJointThreshold.None? { assert ValueOf(s, JointThreshold).None?; }
      else if s.maxConcurrentTasks.None? { assert ValueOf(s, MaxConcurrentTasks).None?; }
      else if s.autoSaveInterval.None? { assert ValueOf(s, AutoSaveInterval).None?; }
      else if s.chartRefreshRate.None? { assert ValueOf(s, ChartRefreshRate).None?; }
      else { assert ValueOf(s, MaxDisplayPoints).None?; }
    }
  }

  /** The defaults pass validation, so saving right after a reset succeeds. */
  lemma DefaultsValidate()
    ensures Validates(DefaultSettings)
  {
  }

  /**
   * The form and its `hasUnsavedChanges` flag.  `lastSaved` is the content the
   * form had when it was created or last saved; the flag being clear means the
   * form still holds it.
   */
  class SettingsForm {
    var values: SystemSettings
    var hasUnsavedChanges: bool
    ghost var lastSaved: SystemSettings

    ghost predicate Valid()
      reads this
    {
      !hasUnsavedChanges ==> values == lastSaved
    }

    constructor ()
      ensures Valid()
      ensures values == DefaultSettings && !hasUnsavedChanges && lastSaved == DefaultSettings
    {
      values := DefaultSettings;
      hasUnsavedChanges := false;
      lastSaved := DefaultSettings;
    }

    /** `handleSave`: when validation passes the flag is cleared; when it fails nothing changes. */
    method HandleSave() returns (saved: bool)
      requires Valid()
      modifies this
      ensures Valid()
      ensures saved <==> Validates(old(values))
      ensures values == old(values)
      ensures saved ==> !hasUnsavedChanges && lastSaved == values
      ensures !saved ==> hasUnsavedChanges == old(hasUnsavedChanges) && lastSaved == old(lastSaved)
    {
      saved := Validates(values);
      if saved {
        hasUnsavedChanges := false;
        lastSaved := values;
      }
    }

    /** `handleReset`: every field back to its default, and the flag set. */
    method HandleReset()
      requires Valid()
      modifies this
      ensures Valid()
      ensures values == DefaultSettings && hasUnsavedChanges && lastSaved == old(lastSaved)
    {
      values := DefaultSettings;
      hasUnsavedChanges := true;
    }

    /** `handleFormChange`, run by `onValuesChange` after an edit produced `newValues`. */
    method HandleFormChange(newValues: SystemSettings)
      requires Valid()
      modifies this
      ensures Valid()
      ensures values == newValues && hasUnsavedChanges && lastSaved == old(lastSaved)
    {
      values := newValues;
      hasUnsavedChanges := true;
    }

    /** The save button is disabled only while the form holds what was last saved. */
    function SaveDisabled(): (disabled: bool)
      reads this
      requires Valid()
      ensures disabled <==> !hasUnsavedChanges
      ensures disabled ==> values == lastSaved
    {
      !hasUnsavedChanges
    }

    /** The "unsaved changes" warning is shown exactly when the save button is enabled. */
    function WarningShown(): (shown: bool)
      reads this
      requires Valid()
      ensures shown <==> !SaveDisabled()
    {
      hasUnsavedChanges
    }
  }
}
