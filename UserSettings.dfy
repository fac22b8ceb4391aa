/**
 * Per-user editor settings (UWhiskerwoodEditorUserSettings): the paths the
 * tools work with, the platform name, the Steam app id and the watched log
 * files, with the defaults the constructor fills into empty fields.
 */
module UserSettings {
  import opened Common
  import opened Paths
  import opened Platform
  import opened FileIO

  /** Whiskerwood's Steam app id. */
  const DefaultSteamAppId: int := 2489330

  const DefaultPlatformName: string := "Windows"

  /** One watched log file (FWhiskerwoodLogWatchConfig). */
  datatype LogWatchConfig = LogWatchConfig(id: FName, displayName: string, logFilePath: string, enabled: bool)

  /** A freshly constructed watch entry: no id, enabled. */
  const NewLogWatchConfig: LogWatchConfig := LogWatchConfig(NameNone, "", "", true)

  /** Every field of the settings object. */
  datatype SettingsFields = SettingsFields(
    modsDirectory: string,
    projectDirectory: string,
    pakDirectory: string,
    appDataDirectory: string,
    platformName: string,
    steamAppId: int,
    tempDeployDirectory: string,
    baseLogsDirectory: string,
    logWatchConfigs: seq<LogWatchConfig>,
    lastCopiedPakPath: string
  )

  /** The AppData default: two levels above the mods directory. */
  function AppDataFromMods(mods: string): string {
    NormalizeDirectoryName(GetPath(GetPath(mods)))
  }

  /** The logs default: `<appData>/Saved/Logs`. */
  function LogsUnder(appData: string): string {
    NormalizeDirectoryName(Join(Join(appData, "Saved"), "Logs"))
  }

  /** The staging default: `<appData>/TempWorkshop`. */
  function TempUnder(appData: string): string {
    NormalizeDirectoryName(Join(appData, "TempWorkshop"))
  }

  /** The mods default: the game's mods folder, normalized (a no-op). */
  function DefaultModsDirectory(host: HostEnv): (r: string)
    ensures r == GetWhiskerwoodModsDirectory(host)
  {
    NormalizeDirectoryName(GetWhiskerwoodModsDirectory(host))
  }

  /**
   * The fields after the constructor's defaults are applied to the values
   * `stored` they held when it ran.
   */
  function WithDefaults(stored: SettingsFields, host: HostEnv): SettingsFields
  {
    var project := if stored.projectDirectory == "" then NormalizeDirectoryName(host.projectDir) else stored.projectDirectory;
    var mods := if stored.modsDirectory == "" then DefaultModsDirectory(host) else stored.modsDirectory;
    var appData := if stored.appDataDirectory == "" then AppDataFromMods(mods) else stored.appDataDirectory;
    var logs := if stored.baseLogsDirectory == "" then LogsUnder(appData) else stored.baseLogsDirectory;
    var temp := if stored.tempDeployDirectory == "" then TempUnder(appData) else stored.tempDeployDirectory;
    var pak := if stored.pakDirectory == "" then "" else NormalizeDirectoryName(stored.pakDirectory);
    var platform := if stored.platformName == "" then DefaultPlatformName else stored.platformName;
    var steam := if stored.steamAppId <= 0 then DefaultSteamAppId else stored.steamAppId;
    var lastPak := if stored.lastCopiedPakPath == "" then "" else Standardize(stored.lastCopiedPakPath);
    SettingsFields(mods, project, pak, appData, platform, steam, temp, logs, stored.logWatchConfigs, lastPak)
  }

  /** A value already present is kept: path fields are never re-derived. */
  lemma WithDefaultsKeepsStored(stored: SettingsFields, host: HostEnv)
    ensures var r := WithDefaults(stored, host);
      && (stored.projectDirectory != "" ==> r.projectDirectory == stored.projectDirectory)
      && (stored.modsDirectory != "" ==> r.modsDirectory == stored.modsDirectory)
      && (stored.appDataDirectory != "" ==> r.appDataDirectory == stored.appDataDirectory)
      && (stored.baseLogsDirectory != "" ==> r.baseLogsDirectory == stored.baseLogsDirectory)
      && (stored.tempDeployDirectory != "" ==> r.tempDeployDirectory == stored.tempDeployDirectory)
      && (stored.platformName != "" ==> r.platformName == stored.platformName)
      && (stored.steamAppId > 0 ==> r.steamAppId == stored.steamAppId)
  {
  }

  /** An empty value is derived, later defaults reading earlier ones. */
  lemma WithDefaultsDerivesEmpty(stored: SettingsFields, host: HostEnv)
    ensures var r := WithDefaults(stored, host);
      && (stored.projectDirectory == "" ==> r.projectDirectory == NormalizeDirectoryName(host.projectDir))
      && (stored.modsDirectory == "" ==> r.modsDirectory == GetWhiskerwoodModsDirectory(host))
      && (stored.appDataDirectory == "" ==> r.appDataDirectory == AppDataFromMods(r.modsDirectory))
      && (stored.baseLogsDirectory == "" ==> r.baseLogsDirectory == LogsUnder(r.appDataDirectory))
      && (stored.tempDeployDirectory == "" ==> r.tempDeployDirectory == TempUnder(r.appDataDirectory))
      && (stored.steamAppId <= 0 ==> r.steamAppId == DefaultSteamAppId)
      && r.pakDirectory == (if stored.pakDirectory == "" then "" else NormalizeDirectoryName(stored.pakDirectory))
      && r.lastCopiedPakPath == Standardize(stored.lastCopiedPakPath)
      && r.platformName != "" && r.steamAppId > 0 && r.logWatchConfigs == stored.logWatchConfigs
  {
  }

  lemma {:induction false} AppDataOfDefaultMods(host: HostEnv)
    ensures AppDataFromMods(GetWhiskerwoodModsDirectory(host)) == WhiskerwoodRoot(host)
  {
    WhiskerwoodRootFacts(host);
    NormalizeIdempotent(Join(AppDataBase(host), "Whiskerwood"));
  }

  lemma {:induction false} LogsUnderRoot(root: string)
    requires root != "" && root[|root| - 1] == 'd' && NoBackslash(root)
    ensures LogsUnder(root) == root + "/Saved/Logs"
  {
    JoinAppends(root, "Saved");
    var saved := root + "/" + "Saved";
    assert saved[|saved| - 1] == 'd';
    JoinAppends(saved, "Logs");
    var logs := saved + "/" + "Logs";
    assert logs == root + "/Saved/Logs";
    assert NoBackslash(logs) && logs[|logs| - 1] == 's';
    NormalizedWhenClean(logs);
  }

  lemma {:induction false} TempUnderRoot(root: string)
    requires root != "" && root[|root| - 1] == 'd' && NoBackslash(root)
    ensures TempUnder(root) == root + "/TempWorkshop"
  {
    JoinAppends(root, "TempWorkshop");
    var temp := root + "/" + "TempWorkshop";
    assert temp == root + "/TempWorkshop";
    assert NoBackslash(temp) && temp[|temp| - 1] == 'p';
    NormalizedWhenClean(temp);
  }

  /**
   * For a first-time user, every derived directory sits inside the game's
   * Whiskerwood folder: the mods folder, the AppData root itself, its
   * Saved/Logs and its TempWorkshop folder.
   */
  lemma {:induction false} FirstRunLayout(stored: SettingsFields, host: HostEnv)
    requires stored.modsDirectory == "" && stored.appDataDirectory == ""
    requires stored.baseLogsDirectory == "" && stored.tempDeployDirectory == ""
    ensures var r := WithDefaults(stored, host);
      && r.modsDirectory == WhiskerwoodRoot(host) + "/Saved/mods"
      && r.appDataDirectory == WhiskerwoodRoot(host)
      && r.baseLogsDirectory == WhiskerwoodRoot(host) + "/Saved/Logs"
      && r.tempDeployDirectory == WhiskerwoodRoot(host) + "/TempWorkshop"
  {
    WithDefaultsDerivesEmpty(stored, host);
    WhiskerwoodRootFacts(host);
    AppDataOfDefaultMods(host);
    LogsUnderRoot(WhiskerwoodRoot(host));
    TempUnderRoot(WhiskerwoodRoot(host));
  }

  /** The default layout's directories are already normalized. */
  lemma {:induction false} RootLayoutNormalized(root: string)
    requires root != "" && root[|root| - 1] == 'd' && NoBackslash(root)
    ensures IsNormalizedDirectory(root)
    ensures IsNormalizedDirectory(root + "/Saved/Logs") && IsNormalizedDirectory(root + "/TempWorkshop")
  {
    NormalizedWhenClean(root);
    var logs := root + "/Saved/Logs";
    var temp := root + "/TempWorkshop";
    assert NoBackslash(logs) && logs[|logs| - 1] == 's';
    assert NoBackslash(temp) && temp[|temp| - 1] == 'p';
    NormalizedWhenClean(logs);
    NormalizedWhenClean(temp);
  }

  /** The settings object, whose fields the tools read and the UI writes. */
  class EditorUserSettings {
    var modsDirectory: string
    var projectDirectory: string
    var pakDirectory: string
    var appDataDirectory: string
    var platformName: string
    var steamAppId: int
    var tempDeployDirectory: string
    var baseLogsDirectory: string
    var logWatchConfigs: seq<LogWatchConfig>
    var lastCopiedPakPath: string
    /** What SaveConfig last wrote to the per-user ini file, if anything. */
    var persisted: Option<SettingsFields>

    function Fields(): SettingsFields
      reads this
    {
      SettingsFields(modsDirectory, projectDirectory, pakDirectory, appDataDirectory, platformName,
                     steamAppId, tempDeployDirectory, baseLogsDirectory, logWatchConfigs, lastCopiedPakPath)
    }

    /**
     * The constructor, run over the values `stored` the fields held: every
     * field takes its defaulted value, in the order WithDefaults spells out.
     */
    constructor (stored: SettingsFields, host: HostEnv)
      ensures Fields() == WithDefaults(stored, host)
      ensures persisted == None
    {
      var f := WithDefaults(stored, host);
      modsDirectory, projectDirectory, pakDirectory, appDataDirectory := f.modsDirectory, f.projectDirectory, f.pakDirectory, f.appDataDirectory;
      platformName, steamAppId, tempDeployDirectory, baseLogsDirectory := f.platformName, f.steamAppId, f.tempDeployDirectory, f.baseLogsDirectory;
      logWatchConfigs, lastCopiedPakPath := f.logWatchConfigs, f.lastCopiedPakPath;
      persisted := None;
    }

    /** SaveSettings: write the current fields to the per-user ini file. */
    method SaveSettings()
      modifies this`persisted
      ensures Fields() == old(Fields())
      ensures persisted == Some(Fields())
    {
      persisted := Some(Fields());
    }
  }

  /** The settings object a nullable pointer refers to, as values. */
  function FieldsOf(settings: EditorUserSettings?): Option<SettingsFields>
    reads settings
  {
    if settings == null then None else Some(settings.Fields())
  }
}
