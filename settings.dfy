/**
 * The settings record the export reads, the settings form derived from it, and the
 * once-per-session upgrade-and-hydrate step run on the first render.
 */
module Settings {
  import opened Wrappers
  import opened Dimensions

  /** Conversion settings; the export overrides `dpi` and `origin` per drawing. */
  datatype ConversionConfig = ConversionConfig(tolerance: real, feedrate: real, dpi: real,
                                               origin: (Option<real>, Option<real>), bedSize: Size)

  /** Machine settings: capabilities and the optional G-code snippets. */
  datatype MachineSettings = MachineSettings(circularInterpolation: bool,
                                             toolOnSequence: Option<string>, toolOffSequence: Option<string>,
                                             beginSequence: Option<string>, endSequence: Option<string>)

  /** Post-processing flags handed to the G-code formatter. */
  datatype PostprocessConfig = PostprocessConfig(checksums: bool, lineNumbers: bool, newlineBeforeComment: bool)

  /** The persisted, versioned settings record. */
  datatype SettingsRecord = SettingsRecord(version: nat, conversion: ConversionConfig,
                                           machine: MachineSettings, postprocess: PostprocessConfig)

  /**
   * The settings form's state: the default one, or the one `FormState::from` derives from a
   * settings record (kept as that record, since the derivation is not part of this model).
   */
  datatype FormState = DefaultForm | FromSettings(source: SettingsRecord)

  /** The two stores and the gate flag `upgraded_settings_and_hydrated_form`. */
  datatype Session = Session(settings: SettingsRecord, form: FormState, hydrated: bool)

  /**
   * The gate as the code does it: the settings store is upgraded in place, but the form is
   * derived from the store snapshot taken before the upgrade (`app_store`), not from the
   * upgraded record.
   */
  function UpgradeAndHydrateAsWritten(s: Session, tryUpgrade: SettingsRecord -> Option<SettingsRecord>): (r: Session)
    requires !s.hydrated ==> tryUpgrade(s.settings).Some?
    ensures s.hydrated ==> r == s
    ensures !s.hydrated ==> r.hydrated && r.settings == tryUpgrade(s.settings).value
    ensures !s.hydrated ==> r.form == FromSettings(s.settings)
  {
    if s.hydrated then s
    else Session(tryUpgrade(s.settings).value, FromSettings(s.settings), true)
  }

  /**
   * The gate as intended: while the flag is down, upgrade the settings (an upgrade
   * failure cannot happen), hydrate the form from the upgraded record and raise the
   * flag; once the flag is up, do nothing.
   */
  function UpgradeAndHydrate(s: Session, tryUpgrade: SettingsRecord -> Option<SettingsRecord>): (r: Session)
    requires !s.hydrated ==> tryUpgrade(s.settings).Some?
    ensures r.hydrated
    ensures s.hydrated ==> r == s
    ensures !s.hydrated ==> r.settings == tryUpgrade(s.settings).value && r.form == FromSettings(r.settings)
  {
    if s.hydrated then s
    else
      var upgraded := tryUpgrade(s.settings).value;
      Session(upgraded, FromSettings(upgraded), true)
  }

  /** A second render never upgrades or hydrates again, so edits to the form survive it. */
  lemma GateRunsOnce(s: Session, tryUpgrade: SettingsRecord -> Option<SettingsRecord>)
    requires !s.hydrated ==> tryUpgrade(s.settings).Some?
    ensures UpgradeAndHydrate(UpgradeAndHydrate(s, tryUpgrade), tryUpgrade) == UpgradeAndHydrate(s, tryUpgrade)
    ensures forall f :: UpgradeAndHydrate(UpgradeAndHydrate(s, tryUpgrade).(form := f), tryUpgrade).form == f
  {
  }

  /**
   * Whenever the upgrade changes the stored record, the code's gate leaves the form showing
   * the record as it was before the upgrade, while the intended gate shows the upgraded one.
   */
  lemma StaleHydration(s: Session, tryUpgrade: SettingsRecord -> Option<SettingsRecord>)
    requires !s.hydrated && tryUpgrade(s.settings).Some?
    requires tryUpgrade(s.settings).value != s.settings
    ensures UpgradeAndHydrateAsWritten(s, tryUpgrade).form != FromSettings(UpgradeAndHydrateAsWritten(s, tryUpgrade).settings)
    ensures UpgradeAndHydrate(s, tryUpgrade).form == FromSettings(UpgradeAndHydrate(s, tryUpgrade).settings)
    ensures UpgradeAndHydrateAsWritten(s, tryUpgrade).settings == UpgradeAndHydrate(s, tryUpgrade).settings
  {
  }

  /** Where the upgrade leaves the record as it is, the two gates agree. */
  lemma NoUpgradeNoDifference(s: Session, tryUpgrade: SettingsRecord -> Option<SettingsRecord>)
    requires !s.hydrated ==> tryUpgrade(s.settings) == Some(s.settings)
    ensures UpgradeAndHydrateAsWritten(s, tryUpgrade) == UpgradeAndHydrate(s, tryUpgrade)
  {
  }
}
