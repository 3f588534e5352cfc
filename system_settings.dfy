// The system settings form of
// packages/frontend/src/composables/settings/useSystemSettings.ts: the
// language, time zone, status-monitor and Docker sections, how each save
// validates its input and reports its outcome, and how the form follows the
// stored settings. The save calls of the settings store are parameters: an
// `Outcome` says whether each returned or threw.
module SystemSettings {
  import opened Wrappers
  import opened Strings

  /** A JavaScript number bound to a number input: NaN or a finite value. */
  datatype Num = NaN | Finite(r: real)

  /** The message under a section; the translated texts are named by what they say. */
  datatype Message = NoMessage | Saved | InvalidInterval | SaveFailed | ErrorText(text: string)

  /** The loading flag, message and success flag of one section. */
  datatype Feedback = Feedback(loading: bool, message: Message, success: bool)

  /** What a save asks of the settings store. */
  datatype Request =
    | UpdateSetting(key: string, value: string)
      /** updateMultipleSettings of the Docker section; the interval is the number itself. */
    | UpdateDocker(dockerStatusIntervalSeconds: real, dockerDefaultExpand: string)

  datatype SettingsUi = SettingsUi(
    selectedLanguage: string, language: Feedback,
    selectedTimezone: string, timezone: Feedback,
    statusMonitorInterval: Num, statusMonitor: Feedback,
    dockerInterval: Num, dockerExpandDefault: bool, docker: Feedback,
    requests: seq<Request>)

  const Idle := Feedback(false, NoMessage, false)

  /** The form before any watcher runs (useSystemSettings.ts:18-21, 48-51, 81-84, 108-112). */
  function InitialUi(storeLanguage: string): SettingsUi
  {
    SettingsUi(storeLanguage, Idle, "UTC", Idle, Finite(3.0), Idle, Finite(2.0), false, Idle, [])
  }

  // ------------------------------------------------------------ validation

  /** The status-monitor guard (useSystemSettings.ts:92): not NaN, at least 1, and an integer. */
  predicate StatusIntervalValid(n: Num)
  {
    n.Finite? && n.r >= 1.0 && n.r.Floor as real == n.r
  }

  /** The Docker guard (useSystemSettings.ts:120): not NaN and at least 1; fractions pass. */
  predicate DockerIntervalValid(n: Num)
  {
    n.Finite? && n.r >= 1.0
  }

  /** The status-monitor interval is accepted exactly when it is a whole number of at least one second. */
  lemma StatusIntervalValidMeaning(n: Num)
    ensures StatusIntervalValid(n) <==> exists k: int {:trigger k as real} :: k >= 1 && n == Finite(k as real)
  {
    if StatusIntervalValid(n) {
      var k := n.r.Floor;
      assert k >= 1 && n == Finite(k as real);
    }
  }

  /** Every interval the status monitor accepts the Docker section accepts too, but not the other way round. */
  lemma DockerGuardIsWeaker(n: Num)
    ensures StatusIntervalValid(n) ==> DockerIntervalValid(n)
    ensures DockerIntervalValid(Finite(1.5)) && !StatusIntervalValid(Finite(1.5))
  {
    assert (1.5).Floor == 1;
  }

  // ----------------------------------------------------------- the saves

  /** `error.message || t('…saveFailed')` for a save that threw. */
  function ErrorMessage(m: Option<string>): Message
  {
    if m.Some? && m.value != "" then ErrorText(m.value) else SaveFailed
  }

  /** How a save attempt ends: the try block's result, then `finally` clears loading. */
  function Finish(outcome: Outcome<()>): Feedback
  {
    if outcome.Returned? then Feedback(false, Saved, true)
    else Feedback(false, ErrorMessage(outcome.message), false)
  }

  /** `String(v)` of a whole number. */
  function IntervalText(n: Num): string
    requires StatusIntervalValid(n)
  {
    IntToString(n.r.Floor)
  }

  /** `v ? 'true' : 'false'`. */
  function ExpandText(b: bool): string
  {
    if b then "true" else "false"
  }

  /** handleUpdateLanguage (useSystemSettings.ts:28-45). */
  function LanguageStep(ui: SettingsUi, outcome: Outcome<()>): SettingsUi
  {
    ui.(language := Finish(outcome),
        requests := ui.requests + [UpdateSetting("language", ui.selectedLanguage)])
  }

  /** handleUpdateTimezone (useSystemSettings.ts:63-78). */
  function TimezoneStep(ui: SettingsUi, outcome: Outcome<()>): SettingsUi
  {
    ui.(timezone := Finish(outcome),
        requests := ui.requests + [UpdateSetting("timezone", ui.selectedTimezone)])
  }

  /** handleUpdateStatusMonitorInterval (useSystemSettings.ts:86-105). */
  function StatusStep(ui: SettingsUi, outcome: Outcome<()>): SettingsUi
  {
    if !StatusIntervalValid(ui.statusMonitorInterval) then
      ui.(statusMonitor := Feedback(false, InvalidInterval, false))
    else
      ui.(statusMonitor := Finish(outcome),
          requests := ui.requests + [UpdateSetting("statusMonitorIntervalSeconds", IntervalText(ui.statusMonitorInterval))])
  }

  /** handleUpdateDockerSettings (useSystemSettings.ts:114-136). */
  function DockerStep(ui: SettingsUi, outcome: Outcome<()>): SettingsUi
  {
    if !DockerIntervalValid(ui.dockerInterval) then
      ui.(docker := Feedback(false, InvalidInterval, false))
    else
      ui.(docker := Finish(outcome),
          requests := ui.requests + [UpdateDocker(ui.dockerInterval.r, ExpandText(ui.dockerExpandDefault))])
  }

  /**
   * Every save ends with loading off. The language and time-zone saves always
   * send the selected value; the section succeeds exactly when the store
   * returned, and a failure shows the error's own text or the generic one.
   * Nothing else in the form changes.
   */
  lemma PlainSaveMeaning(ui: SettingsUi, outcome: Outcome<()>)
    ensures var ui' := LanguageStep(ui, outcome);
      && !ui'.language.loading
      && (ui'.language.success <==> outcome.Returned?)
      && (outcome.Threw? ==> ui'.language.message == (if outcome.message == Some("") || outcome.message.None? then SaveFailed else ErrorText(outcome.message.value)))
      && ui'.requests == ui.requests + [UpdateSetting("language", ui.selectedLanguage)]
      && ui'.(language := ui.language, requests := ui.requests) == ui
    ensures var ui' := TimezoneStep(ui, outcome);
      && !ui'.timezone.loading
      && (ui'.timezone.success <==> outcome.Returned?)
      && ui'.requests == ui.requests + [UpdateSetting("timezone", ui.selectedTimezone)]
      && ui'.(timezone := ui.timezone, requests := ui.requests) == ui
  {
  }

  /**
   * The status-monitor save sends the interval's decimal text exactly when
   * the interval is a whole number of at least one; an invalid interval
   * shows the invalid-interval message and sends nothing. The section
   * succeeds exactly when the interval is valid and the store returned.
   */
  lemma StatusSaveMeaning(ui: SettingsUi, outcome: Outcome<()>)
    ensures var ui' := StatusStep(ui, outcome);
      && !ui'.statusMonitor.loading
      && (ui'.statusMonitor.success <==> StatusIntervalValid(ui.statusMonitorInterval) && outcome.Returned?)
      && (!StatusIntervalValid(ui.statusMonitorInterval) ==> ui'.statusMonitor.message == InvalidInterval && ui'.requests == ui.requests)
      && (StatusIntervalValid(ui.statusMonitorInterval) ==>
            exists k: int :: k >= 1 && ui.statusMonitorInterval == Finite(k as real) &&
              ui'.requests == ui.requests + [UpdateSetting("statusMonitorIntervalSeconds", IntToString(k))])
      && ui'.(statusMonitor := ui.statusMonitor, requests := ui.requests) == ui
  {
    if StatusIntervalValid(ui.statusMonitorInterval) {
      var k := ui.statusMonitorInterval.r.Floor;
      assert IntervalText(ui.statusMonitorInterval) == IntToString(k);
    }
  }

  /**
   * The Docker save sends the interval and the expand flag as 'true' or
   * 'false' exactly when the interval is a number of at least one; the
   * section succeeds exactly when it was sent and the store returned.
   */
  lemma DockerSaveMeaning(ui: SettingsUi, outcome: Outcome<()>)
    ensures var ui' := DockerStep(ui, outcome);
      && !ui'.docker.loading
      && (ui'.docker.success <==> DockerIntervalValid(ui.dockerInterval) && outcome.Returned?)
      && (!DockerIntervalValid(ui.dockerInterval) ==> ui'.docker.message == InvalidInterval && ui'.requests == ui.requests)
      && (DockerIntervalValid(ui.dockerInterval) ==>
            ui'.requests == ui.requests + [UpdateDocker(ui.dockerInterval.r, if ui.dockerExpandDefault then "true" else "false")])
      && ui'.(docker := ui.docker, requests := ui.requests) == ui
  {
  }

  // ---------------------------------------------------------- the watchers

  /** `settings[key] || fallback`: a missing or empty setting takes the fallback. */
  function SettingOr(settings: map<string, string>, key: string, fallback: string): (r: string)
    ensures key in settings && settings[key] != "" ==> r == settings[key]
    ensures (key !in settings || settings[key] == "") ==> r == fallback
  {
    if key in settings && settings[key] != "" then settings[key] else fallback
  }

  /** `parseInt(s, 10)` as a number. */
  function ParseNum(s: string): Num
  {
    match ParseInt(s)
    case None => NaN
    case Some(i) => Finite(i as real)
  }

  /** The watcher on the stored settings (useSystemSettings.ts:139-149); no settings change nothing. */
  function WatchStep(ui: SettingsUi, settings: Option<map<string, string>>): SettingsUi
  {
    match settings
    case None => ui
    case Some(m) =>
      ui.(selectedLanguage := SettingOr(m, "language", "en-US"),
          selectedTimezone := SettingOr(m, "timezone", "UTC"),
          statusMonitorInterval := ParseNum(SettingOr(m, "statusMonitorIntervalSeconds", "3")),
          dockerInterval := ParseNum(SettingOr(m, "dockerStatusIntervalSeconds", "2")),
          dockerExpandDefault := "dockerDefaultExpand" in m && m["dockerDefaultExpand"] == "true")
  }

  /** With none of its settings stored the form shows English, UTC, 3 seconds, 2 seconds and collapsed. */
  lemma WatchDefaults(ui: SettingsUi)
    ensures var ui' := WatchStep(ui, Some(map[]));
      && ui'.selectedLanguage == "en-US" && ui'.selectedTimezone == "UTC"
      && ui'.statusMonitorInterval == Finite(3.0) && ui'.dockerInterval == Finite(2.0)
      && !ui'.dockerExpandDefault
      && ui'.language == ui.language && ui'.requests == ui.requests
  {
    ParseIntOfIntToString(3);
    ParseIntOfIntToString(2);
  }

  /**
   * What a save writes the watcher reads back: a stored status-monitor
   * interval saved from a whole number, a Docker interval saved from a whole
   * number, and the expand flag all return to the form unchanged.
   */
  lemma SavedSettingsReadBack(ui: SettingsUi, m: map<string, string>, status: Num, dockerInterval: int, expand: bool)
    requires StatusIntervalValid(status)
    requires "statusMonitorIntervalSeconds" in m && m["statusMonitorIntervalSeconds"] == IntervalText(status)
    requires "dockerStatusIntervalSeconds" in m && m["dockerStatusIntervalSeconds"] == IntToString(dockerInterval)
    requires "dockerDefaultExpand" in m && m["dockerDefaultExpand"] == ExpandText(expand)
    ensures var ui' := WatchStep(ui, Some(m));
      ui'.statusMonitorInterval == status && ui'.dockerInterval == Finite(dockerInterval as real) && ui'.dockerExpandDefault == expand
  {
    ParseIntOfIntToString(status.r.Floor);
    ParseIntOfIntToString(dockerInterval);
  }

  // ---------------------------------------------------------------- class

  class SystemSettingsForm {
    var selectedLanguage: string
    var language: Feedback
    var selectedTimezone: string
    var timezone: Feedback
    var statusMonitorIntervalLocal: Num
    var statusMonitor: Feedback
    var dockerInterval: Num
    var dockerExpandDefault: bool
    var docker: Feedback
    var requests: seq<Request>

    function Abs(): SettingsUi
      reads this
    {
      SettingsUi(selectedLanguage, language, selectedTimezone, timezone,
                 statusMonitorIntervalLocal, statusMonitor, dockerInterval, dockerExpandDefault, docker, requests)
    }

    constructor (storeLanguage: string)
      ensures Abs() == InitialUi(storeLanguage)
    {
      selectedLanguage := storeLanguage;
      language := Idle;
      selectedTimezone := "UTC";
      timezone := Idle;
      statusMonitorIntervalLocal := Finite(3.0);
      statusMonitor := Idle;
      dockerInterval := Finite(2.0);
      dockerExpandDefault := false;
      docker := Idle;
      requests := [];
    }

    /** handleUpdateLanguage (useSystemSettings.ts:28-45). */
    method HandleUpdateLanguage(outcome: Outcome<()>)
      modifies this
      ensures Abs() == LanguageStep(old(Abs()), outcome)
    {
      language := Feedback(true, NoMessage, false);
      requests := requests + [UpdateSetting("language", selectedLanguage)];
      if outcome.Returned? {
        language := language.(message := Saved, success := true);
      } else {
        language := language.(message := ErrorMessage(outcome.message), success := false);
      }
      language := language.(loading := false);
    }

    /** handleUpdateTimezone (useSystemSettings.ts:63-78). */
    method HandleUpdateTimezone(outcome: Outcome<()>)
      modifies this
      ensures Abs() == TimezoneStep(old(Abs()), outcome)
    {
      timezone := Feedback(true, NoMessage, false);
      requests := requests + [UpdateSetting("timezone", selectedTimezone)];
      if outcome.Returned? {
        timezone := timezone.(message := Saved, success := true);
      } else {
        timezone := timezone.(message := ErrorMessage(outcome.message), success := false);
      }
      timezone := timezone.(loading := false);
    }

    /** handleUpdateStatusMonitorInterval (useSystemSettings.ts:86-105). */
    method HandleUpdateStatusMonitorInterval(outcome: Outcome<()>)
      modifies this
      ensures Abs() == StatusStep(old(Abs()), outcome)
    {
      statusMonitor := Feedback(true, NoMessage, false);
      var intervalValue := statusMonitorIntervalLocal;
      if intervalValue.NaN? || intervalValue.r < 1.0 || intervalValue.r.Floor as real != intervalValue.r {
        statusMonitor := statusMonitor.(message := InvalidInterval, success := false);
      } else {
        requests := requests + [UpdateSetting("statusMonitorIntervalSeconds", IntToString(intervalValue.r.Floor))];
        if outcome.Returned? {
          statusMonitor := statusMonitor.(message := Saved, success := true);
        } else {
          statusMonitor := statusMonitor.(message := ErrorMessage(outcome.message), success := false);
        }
      }
      statusMonitor := statusMonitor.(loading := false);
    }

    /** handleUpdateDockerSettings (useSystemSettings.ts:114-136). */
    method HandleUpdateDockerSettings(outcome: Outcome<()>)
      modifies this
      ensures Abs() == DockerStep(old(Abs()), outcome)
    {
      docker := Feedback(true, NoMessage, false);
      var intervalValue := dockerInterval;
      if intervalValue.NaN? || intervalValue.r < 1.0 {
        docker := docker.(message := InvalidInterval, success := false);
      } else {
        requests := requests + [UpdateDocker(intervalValue.r, if dockerExpandDefault then "true" else "false")];
        if outcome.Returned? {
          docker := docker.(message := Saved, success := true);
        } else {
          docker := docker.(message := ErrorMessage(outcome.message), success := false);
        }
      }
      docker := docker.(loading := false);
    }

    /** The watcher on the stored settings (useSystemSettings.ts:139-149). */
    method OnSettingsChanged(settings: Option<map<string, string>>)
      modifies this
      ensures Abs() == WatchStep(old(Abs()), settings)
    {
      if settings.Some? {
        var newSettings := settings.value;
        selectedLanguage := SettingOr(newSettings, "language", "en-US");
        selectedTimezone := SettingOr(newSettings, "timezone", "UTC");
        statusMonitorIntervalLocal := ParseNum(SettingOr(newSettings, "statusMonitorIntervalSeconds", "3"));
        dockerInterval := ParseNum(SettingOr(newSettings, "dockerStatusIntervalSeconds", "2"));
        dockerExpandDefault := "dockerDefaultExpand" in newSettings && newSettings["dockerDefaultExpand"] == "true";
      }
    }

    /** The watcher on the store's Docker expand flag (useSystemSettings.ts:152-154). */
    method OnDockerDefaultExpandChanged(newValue: bool)
      modifies this`dockerExpandDefault
      ensures dockerExpandDefault == newValue
    {
      dockerExpandDefault := newValue;
    }

    /** The watcher on the store's status-monitor interval (useSystemSettings.ts:157-159). */
    method OnStatusMonitorIntervalChanged(newValue: Num)
      modifies this`statusMonitorIntervalLocal
      ensures statusMonitorIntervalLocal == newValue
    {
      statusMonitorIntervalLocal := newValue;
    }

    /** The watcher on the store's language (useSystemSettings.ts:162-164). */
    method OnStoreLanguageChanged(newVal: string)
      modifies this`selectedLanguage
      ensures selectedLanguage == newVal
    {
      selectedLanguage := newVal;
    }
  }
}
