/**
 * `DashboardViewModel`: the dashboard's UI state and the refresh that fills it
 * from the usage store and the settings.
 *
 * The refresh coroutine is modelled in two steps. `RefreshUsage` launches it:
 * from then on `refreshActive` plays the part of `refreshJob?.isActive`, and
 * the first statement of its body (show as loading) has run.
 * `FinishRefresh` runs the rest of the body to its end, either normally or
 * through the `catch` when one of the three reads throws.
 */
module Dashboard {
  import opened Wrappers
  import opened Text
  import opened Collections
  import opened UsageStore
  import opened UsageRepo
  import opened SettingsStore
  import CheckUsage

  datatype DashboardUiState = DashboardUiState(
    usages: seq<AppUsageEntity>,
    totalMs: int,
    totalLimitMs: int,
    isLoading: bool,
    hasPermission: bool,
    isBatteryOptimized: bool)

  /** `DashboardUiState()`: nothing yet, a three-hour limit, loading, no permission, battery optimisation still on. */
  const InitialUiState: DashboardUiState := DashboardUiState([], 0, 3 * 60 * 60 * 1000, true, false, true)

  /** The view model's state: what the screen shows, and whether a refresh job is running. */
  datatype Dashboard = Dashboard(ui: DashboardUiState, refreshActive: bool)

  const Initial: Dashboard := Dashboard(InitialUiState, false)

  /** The three reads inside the refresh's `try`, any of which may throw. */
  datatype LoadStep = SaveStep | SettingsStep | ListStep

  // ---------------------------------------------------------------------------
  // Transitions

  /** `refreshUsage`: nothing while a refresh is running; otherwise a refresh starts and shows as loading. */
  function RefreshStarted(d: Dashboard): Dashboard {
    if d.refreshActive then d else Dashboard(d.ui.(isLoading := true), true)
  }

  /** `setPermissionGranted`: store the flag, and refresh when it has just turned on. */
  function PermissionSet(d: Dashboard, granted: bool): Dashboard {
    var prev := d.ui.hasPermission;
    var d' := d.(ui := d.ui.(hasPermission := granted));
    if granted && !prev then RefreshStarted(d') else d'
  }

  /** `setBatteryOptimized`. */
  function BatterySet(d: Dashboard, optimized: bool): Dashboard {
    d.(ui := d.ui.(isBatteryOptimized := optimized))
  }

  /** The end of the refresh's `try`: the listing, its sum and the configured limit are shown. */
  function Completed(d: Dashboard, usages: seq<AppUsageEntity>, settings: Settings): Dashboard {
    Dashboard(d.ui.(usages := usages, totalMs := RowsTotal(usages), totalLimitMs := settings.totalLimitMs,
                    isLoading := false), false)
  }

  /** The refresh's `catch`: loading ends, whatever was shown before stays. */
  function Failed(d: Dashboard): Dashboard {
    Dashboard(d.ui.(isLoading := false), false)
  }

  // ---------------------------------------------------------------------------
  // Properties of the transitions

  /** The defaults of `DashboardUiState` agree with the default settings' total limit. */
  lemma InitialDefaults()
    ensures Initial.ui.totalLimitMs == 10800000 == DefaultSettings.totalLimitMs
    ensures Initial.ui.usages == [] && Initial.ui.totalMs == RowsTotal(Initial.ui.usages)
    ensures Initial.ui.isLoading && !Initial.ui.hasPermission && Initial.ui.isBatteryOptimized
    ensures !Initial.refreshActive
  {
  }

  /** A refresh never runs twice at once: starting one while one runs changes nothing. */
  lemma RefreshSingleFlight(d: Dashboard)
    ensures RefreshStarted(d).refreshActive && RefreshStarted(d).ui.isLoading == (d.ui.isLoading || !d.refreshActive)
    ensures d.refreshActive ==> RefreshStarted(d) == d
    ensures RefreshStarted(RefreshStarted(d)) == RefreshStarted(d)
  {
  }

  /** Setting the permission stores it, and a refresh starts exactly when the flag turns on while none runs. */
  lemma PermissionStartsRefreshIff(d: Dashboard, granted: bool)
    ensures PermissionSet(d, granted).ui.hasPermission == granted
    ensures (!d.refreshActive && PermissionSet(d, granted).refreshActive) <==>
      (granted && !d.ui.hasPermission && !d.refreshActive)
    ensures d.refreshActive ==> PermissionSet(d, granted).refreshActive
  {
  }

  /** Granting the same permission twice is the same as granting it once: the second call starts nothing. */
  lemma PermissionIdempotent(d: Dashboard, granted: bool)
    ensures PermissionSet(PermissionSet(d, granted), granted) == PermissionSet(d, granted)
  {
  }

  /** Neither flag setter touches the listing, the totals or the other flag. */
  lemma SettersKeepData(d: Dashboard, granted: bool, optimized: bool)
    ensures var p := PermissionSet(d, granted).ui;
      p.usages == d.ui.usages && p.totalMs == d.ui.totalMs && p.totalLimitMs == d.ui.totalLimitMs
      && p.isBatteryOptimized == d.ui.isBatteryOptimized
    ensures var b := BatterySet(d, optimized);
      b.refreshActive == d.refreshActive && b.ui.isBatteryOptimized == optimized
      && b.ui.usages == d.ui.usages && b.ui.totalMs == d.ui.totalMs && b.ui.totalLimitMs == d.ui.totalLimitMs
      && b.ui.isLoading == d.ui.isLoading && b.ui.hasPermission == d.ui.hasPermission
  {
  }

  /** The two flag setters commute. */
  lemma SettersCommute(d: Dashboard, granted: bool, optimized: bool)
    ensures BatterySet(PermissionSet(d, granted), optimized) == PermissionSet(BatterySet(d, optimized), granted)
  {
  }

  /** A failed refresh ends the loading and the job and keeps what was shown, flags included. */
  lemma FailedKeepsData(d: Dashboard)
    ensures !Failed(d).refreshActive && !Failed(d).ui.isLoading
    ensures Failed(d).ui.usages == d.ui.usages && Failed(d).ui.totalMs == d.ui.totalMs
    ensures Failed(d).ui.totalLimitMs == d.ui.totalLimitMs
    ensures Failed(d).ui.hasPermission == d.ui.hasPermission && Failed(d).ui.isBatteryOptimized == d.ui.isBatteryOptimized
  {
  }

  /**
   * After a successful refresh the screen shows exactly the rows stored for
   * today, largest first, and a total equal to the sum of the fresh listing
   * that was saved: the same value the worker compares against the limit.
   */
  lemma CompletedShowsSavedDay(d: Dashboard, rows: seq<AppUsageEntity>, today: string, events: seq<UsageEvent>,
                               end: int, labelOf: string -> Option<string>, settings: Settings)
    ensures var saved := Replaced(rows, today, Stamped(TodayUsage(events, end, labelOf), today));
      var r := Completed(d, UsageByDate(saved, today), settings);
      && r.ui.totalMs == SumBy(TodayUsage(events, end, labelOf), InfoUsage)
      && SortedDesc(r.ui.usages, UsageOf)
      && (forall x :: x in r.ui.usages <==> x in saved && x.date == today)
      && r.ui.totalLimitMs == settings.totalLimitMs
      && !r.ui.isLoading && !r.refreshActive
      && r.ui.hasPermission == d.ui.hasPermission && r.ui.isBatteryOptimized == d.ui.isBatteryOptimized
  {
    var saved := Replaced(rows, today, Stamped(TodayUsage(events, end, labelOf), today));
    SortDescSum(DatedOn(saved, today), UsageOf, UsageOf);
    RefreshedTotal(rows, today, events, end, labelOf);
    UsageByDateMembers(saved, today);
  }

  /** On first launch, granting the permission starts a refresh; once it completes the screen is no longer loading. */
  lemma FirstGrantLoads(usages: seq<AppUsageEntity>, settings: Settings)
    ensures PermissionSet(Initial, true).refreshActive && PermissionSet(Initial, true).ui.isLoading
    ensures var r := Completed(PermissionSet(Initial, true), usages, settings);
      !r.refreshActive && !r.ui.isLoading && r.ui.hasPermission && r.ui.usages == usages
  {
  }

  // ---------------------------------------------------------------------------
  // formatDuration

  /** `formatDuration`: "{h}h {m}m" when there is a whole hour, else "{m}m", with `Long` division. */
  function FormatDuration(ms: int): string {
    var hours := Quot(ms, 3600000);
    var minutes := Quot(Rem(ms, 3600000), 60000);
    if hours > 0 then LongToString(hours) + "h " + LongToString(minutes) + "m" else LongToString(minutes) + "m"
  }

  /** For a non-negative duration: the whole hours and the minutes 0..59 left over. */
  lemma FormatDurationFields(ms: int)
    requires ms >= 0
    ensures var h, m := ms / 3600000, (ms % 3600000) / 60000;
      && 0 <= m < 60
      && h * 3600000 + m * 60000 <= ms < h * 3600000 + (m + 1) * 60000
      && FormatDuration(ms) == (if h > 0 then NatToString(h) + "h " + NatToString(m) + "m" else NatToString(m) + "m")
  {
    var h, r := ms / 3600000, ms % 3600000;
    var m := r / 60000;
    assert Quot(ms, 3600000) == h;
    assert Rem(ms, 3600000) == r;
    assert Quot(r, 60000) == m;
  }

  lemma SpacedShape(hs: string, ms: string)
    ensures hs + "h " + ms + "m" == hs + "h" + " " + ms + "m"
  {
  }

  /** Reading back either shape of the dashboard's text gives hours * 60 + minutes. */
  lemma ReadSpaced(h: nat, m: nat, s: string)
    requires s == (if h > 0 then NatToString(h) + "h " + NatToString(m) + "m" else NatToString(m) + "m")
    ensures ReadDuration(s, " ") == Some(h * 60 + m)
  {
    if h > 0 {
      ReadHoursMinutes(h, m, " ");
      SpacedShape(NatToString(h), NatToString(m));
    } else {
      ReadMinutes(m, " ");
    }
  }

  /** Reading the dashboard's text back, with the space between the fields, gives the whole minutes. */
  lemma FormatDurationRoundTrip(ms: int)
    requires ms >= 0
    ensures ReadDuration(FormatDuration(ms), " ") == Some(ms / 60000)
  {
    var h, m := ms / 3600000, (ms % 3600000) / 60000;
    assert ms / 60000 == h * 60 + m by {
      FormatDurationFields(ms);
      CheckUsage.DivideByMinutes(ms, h, m, ms - h * 3600000 - m * 60000);
    }
    assert ReadDuration(FormatDuration(ms), " ") == Some(h * 60 + m) by {
      FormatDurationFields(ms);
      ReadSpaced(h, m, FormatDuration(ms));
    }
  }

  /**
   * The dashboard and the alert message render a duration the same way
   * exactly when it is under an hour: from a whole hour on, the dashboard puts
   * a space after the "h".
   */
  lemma FormatsAgreeIff(ms: int)
    ensures FormatDuration(ms) == CheckUsage.FormatDuration(ms) <==> Quot(ms, 3600000) <= 0
  {
    if Quot(ms, 3600000) > 0 {
      assert |FormatDuration(ms)| == |CheckUsage.FormatDuration(ms)| + 1;
    }
  }

  /** Both renderings read back to the same minutes. */
  lemma FormatsReadAlike(ms: int)
    requires ms >= 0
    ensures ReadDuration(FormatDuration(ms), " ") == ReadDuration(CheckUsage.FormatDuration(ms), "")
  {
    FormatDurationRoundTrip(ms);
    CheckUsage.FormatDurationRoundTrip(ms);
  }

  // ---------------------------------------------------------------------------
  // The view model

  class DashboardViewModel {
    const usageRepository: UsageRepository
    const settingsRepository: SettingsRepository
    var uiState: DashboardUiState
    var refreshActive: bool

    ghost function State(): Dashboard
      reads this
    {
      Dashboard(uiState, refreshActive)
    }

    constructor (usageRepository: UsageRepository, settingsRepository: SettingsRepository)
      ensures this.usageRepository == usageRepository && this.settingsRepository == settingsRepository
      ensures State() == Initial
    {
      this.usageRepository := usageRepository;
      this.settingsRepository := settingsRepository;
      uiState := InitialUiState;
      refreshActive := false;
    }

    method SetPermissionGranted(granted: bool)
      modifies this
      ensures State() == PermissionSet(old(State()), granted)
    {
      var prev := uiState.hasPermission;
      uiState := uiState.(hasPermission := granted);
      if granted && !prev {
        RefreshUsage();
      }
    }

    method SetBatteryOptimized(optimized: bool)
      modifies this
      ensures State() == BatterySet(old(State()), optimized)
    {
      uiState := uiState.(isBatteryOptimized := optimized);
    }

    /** `refreshUsage`: launches the job unless one is running; the job's first statement shows the loading state. */
    method RefreshUsage()
      modifies this
      ensures State() == RefreshStarted(old(State()))
    {
      if refreshActive {
        return;
      }
      refreshActive := true;
      uiState := uiState.(isLoading := true);
    }

    /**
     * The rest of the refresh job: save today's listing, read the settings and
     * the stored listing, and show them; `fault` names the read that throws, if any.
     */
    method FinishRefresh(today: string, events: seq<UsageEvent>, end: int, labelOf: string -> Option<string>,
                         fault: Option<LoadStep>)
      requires refreshActive
      requires usageRepository.dao.Valid()
      modifies this, usageRepository.dao
      ensures usageRepository.dao.Valid()
      ensures var saved := Replaced(old(usageRepository.dao.rows), today, Stamped(TodayUsage(events, end, labelOf), today));
        usageRepository.dao.rows == (if fault == Some(SaveStep) then old(usageRepository.dao.rows) else saved)
      ensures fault.Some? ==> State() == Failed(old(State()))
      ensures fault.None? ==>
        State() == Completed(old(State()), UsageByDate(usageRepository.dao.rows, today), ReadSettings(settingsRepository.prefs))
    {
      if fault == Some(SaveStep) {
        EndFailed();
        return;
      }
      usageRepository.RefreshAndSave(today, events, end, labelOf);
      if fault.Some? {
        EndFailed();
        return;
      }
      var settings := settingsRepository.GetSettings();
      var usages := usageRepository.GetTodayUsage(today);
      EndLoaded(usages, settings);
    }

    /** The end of the `try`: the listing, `usages.sumOf { it.usageTimeMs }` and the limit are shown. */
    method EndLoaded(usages: seq<AppUsageEntity>, settings: Settings)
      modifies this
      ensures State() == Completed(old(State()), usages, settings)
    {
      var totalMs := RowsTotal(usages);
      uiState := uiState.(usages := usages, totalMs := totalMs, totalLimitMs := settings.totalLimitMs, isLoading := false);
      refreshActive := false;
    }

    /** The `catch`: only the loading indicator changes, and the job ends. */
    method EndFailed()
      modifies this
      ensures State() == Failed(old(State()))
    {
      uiState := uiState.(isLoading := false);
      refreshActive := false;
    }
  }
}
