/**
 * The editor plugin's mod tools (UWhiskerwoodModToolsLibrary): resolving
 * the directories the tools work in, finding the pak a mod was cooked
 * into, moving it with a JSON descriptor into the mod's folder, the
 * moved / deployable status, removing a moved mod, staging it for the
 * Steam workshop, and the packaging command line.
 *
 * Settings and mod assets are read as values (None for a null pointer).
 * Engine queries are parameters: `find(directory, wildcard)` stands for
 * IFileManager::FindFilesRecursive and `effectiveRule` for the asset
 * manager's effective Rules.ChunkId.
 */
module ModTools {
  import opened Common
  import opened Paths
  import opened Platform
  import opened FileIO
  import opened ModSettings
  import opened UserSettings

  /** IFileManager::FindFilesRecursive(directory, wildcard), files only. */
  type Finder = (string, string) -> seq<string>

  // ---------------------------------------------------------------------
  // Directory resolution: the user's setting, else a derived default
  // ---------------------------------------------------------------------

  predicate ProjectSet(s: Option<SettingsFields>) { s.Some? && s.value.projectDirectory != "" }
  predicate ModsSet(s: Option<SettingsFields>) { s.Some? && s.value.modsDirectory != "" }
  predicate AppDataSet(s: Option<SettingsFields>) { s.Some? && s.value.appDataDirectory != "" }
  predicate LogsSet(s: Option<SettingsFields>) { s.Some? && s.value.baseLogsDirectory != "" }
  predicate TempSet(s: Option<SettingsFields>) { s.Some? && s.value.tempDeployDirectory != "" }
  predicate PakSet(s: Option<SettingsFields>) { s.Some? && s.value.pakDirectory != "" }

  /** ResolveProjectDirectory (relative paths are taken as already full). */
  function ResolveProjectDirectory(s: Option<SettingsFields>, host: HostEnv): (r: string)
    ensures ProjectSet(s) ==> r == NormalizeDirectoryName(s.value.projectDirectory)
    ensures !ProjectSet(s) ==> r == NormalizeDirectoryName(host.projectDir)
    ensures IsNormalizedDirectory(r)
  {
    var dir := if ProjectSet(s) then s.value.projectDirectory else host.projectDir;
    NormalizeIdempotent(dir);
    NormalizeDirectoryName(dir)
  }

  /**
   * ResolveModsDirectory: the setting, else the game's own mods folder,
   * which always passes the safety gate.
   */
  function ResolveModsDirectory(s: Option<SettingsFields>, host: HostEnv): (r: string)
    ensures ModsSet(s) ==> r == NormalizeDirectoryName(s.value.modsDirectory)
    ensures !ModsSet(s) ==> r == GetWhiskerwoodModsDirectory(host) && SafeDestPath(r).ok
    ensures IsNormalizedDirectory(r)
  {
    var dir := if ModsSet(s) then s.value.modsDirectory else GetWhiskerwoodModsDirectory(host);
    NormalizeIdempotent(dir);
    NormalizeDirectoryName(dir)
  }

  /**
   * ResolveAppDataDirectory: the setting, else two levels above the mods
   * directory; with neither set, that is the Whiskerwood folder itself.
   */
  function ResolveAppDataDirectory(s: Option<SettingsFields>, host: HostEnv): (r: string)
    ensures AppDataSet(s) ==> r == NormalizeDirectoryName(s.value.appDataDirectory)
    ensures !AppDataSet(s) ==> r == AppDataFromMods(ResolveModsDirectory(s, host))
    ensures !AppDataSet(s) && !ModsSet(s) ==> r == WhiskerwoodRoot(host) && SafeDestPath(r).ok
    ensures IsNormalizedDirectory(r)
  {
    if AppDataSet(s) then
      NormalizeIdempotent(s.value.appDataDirectory);
      NormalizeDirectoryName(s.value.appDataDirectory)
    else
      var mods := ResolveModsDirectory(s, host);
      NormalizeIdempotent(GetPath(GetPath(mods)));
      AppDataOfDefaultMods(host);
      WhiskerwoodRootFacts(host);
      AppDataFromMods(mods)
  }

  /** ResolveBaseLogsDirectory: the setting, else `<AppData>/Saved/Logs`. */
  function ResolveBaseLogsDirectory(s: Option<SettingsFields>, host: HostEnv): (r: string)
    ensures LogsSet(s) ==> r == NormalizeDirectoryName(s.value.baseLogsDirectory)
    ensures !LogsSet(s) ==> r == LogsUnder(ResolveAppDataDirectory(s, host))
    ensures IsNormalizedDirectory(r)
  {
    if LogsSet(s) then
      NormalizeIdempotent(s.value.baseLogsDirectory);
      NormalizeDirectoryName(s.value.baseLogsDirectory)
    else
      var appData := ResolveAppDataDirectory(s, host);
      NormalizeIdempotent(Join(Join(appData, "Saved"), "Logs"));
      LogsUnder(appData)
  }

  /** ResolveTempDeployDirectory: the setting, else `<AppData>/TempWorkshop`. */
  function ResolveTempDeployDirectory(s: Option<SettingsFields>, host: HostEnv): (r: string)
    ensures TempSet(s) ==> r == NormalizeDirectoryName(s.value.tempDeployDirectory)
    ensures !TempSet(s) ==> r == TempUnder(ResolveAppDataDirectory(s, host))
    ensures IsNormalizedDirectory(r)
  {
    if TempSet(s) then
      NormalizeIdempotent(s.value.tempDeployDirectory);
      NormalizeDirectoryName(s.value.tempDeployDirectory)
    else
      var appData := ResolveAppDataDirectory(s, host);
      NormalizeIdempotent(Join(appData, "TempWorkshop"));
      TempUnder(appData)
  }

  /**
   * With neither the logs (or staging) folder, the AppData folder nor the
   * mods folder set, logs go to `<Whiskerwood>/Saved/Logs` and staging to
   * `<Whiskerwood>/TempWorkshop`.
   */
  lemma {:induction false} DefaultLogsAndTempLayout(s: Option<SettingsFields>, host: HostEnv)
    requires !AppDataSet(s) && !ModsSet(s)
    ensures !LogsSet(s) ==> ResolveBaseLogsDirectory(s, host) == WhiskerwoodRoot(host) + "/Saved/Logs"
    ensures !TempSet(s) ==> ResolveTempDeployDirectory(s, host) == WhiskerwoodRoot(host) + "/TempWorkshop"
  {
    WhiskerwoodRootFacts(host);
    LogsUnderRoot(WhiskerwoodRoot(host));
    TempUnderRoot(WhiskerwoodRoot(host));
  }

  /** The wildcard ResolvePakDirectory searches for. */
  const AnyPakWildcard: string := "pakchunk*-*.pak"

  /**
   * ResolvePakDirectory: the setting, else the folder of the first pak
   * found under the project directory, else "" (no synthesized default).
   */
  function ResolvePakDirectory(s: Option<SettingsFields>, host: HostEnv, find: Finder): (r: string)
    ensures PakSet(s) ==> r == NormalizeDirectoryName(s.value.pakDirectory)
    ensures !PakSet(s) ==>
      var found := find(ResolveProjectDirectory(s, host), AnyPakWildcard);
      && (found == [] ==> r == "")
      && (found != [] ==> r == NormalizeDirectoryName(GetPath(found[0])))
    ensures !PakSet(s) && r != "" ==> |r| <= |find(ResolveProjectDirectory(s, host), AnyPakWildcard)[0]|
    ensures IsNormalizedDirectory(r)
  {
    if PakSet(s) then
      NormalizeIdempotent(s.value.pakDirectory);
      NormalizeDirectoryName(s.value.pakDirectory)
    else
      var found := find(ResolveProjectDirectory(s, host), AnyPakWildcard);
      if |found| > 0 then
        NormalizeIdempotent(GetPath(found[0]));
        NormalizeDirectoryName(GetPath(found[0]))
      else
        assert NormalizeDirectoryName("") == "";
        ""
  }

  /**
   * The settings constructor and the resolvers derive the same defaults:
   * the directories a first-time user's settings are constructed with
   * resolve exactly as absent settings do.
   */
  lemma {:induction false} ConstructedDefaultsResolveAlike(stored: SettingsFields, host: HostEnv)
    requires stored.modsDirectory == "" && stored.appDataDirectory == ""
    requires stored.baseLogsDirectory == "" && stored.tempDeployDirectory == ""
    ensures var s := Some(WithDefaults(stored, host));
      && ResolveModsDirectory(s, host) == ResolveModsDirectory(None, host)
      && ResolveAppDataDirectory(s, host) == ResolveAppDataDirectory(None, host)
      && ResolveBaseLogsDirectory(s, host) == ResolveBaseLogsDirectory(None, host)
      && ResolveTempDeployDirectory(s, host) == ResolveTempDeployDirectory(None, host)
  {
    var w := WithDefaults(stored, host);
    WithDefaultsDerivesEmpty(stored, host);
    var mods := GetWhiskerwoodModsDirectory(host);
    assert ResolveModsDirectory(Some(w), host) == mods;
    var appData := AppDataFromMods(mods);
    NormalizeIdempotent(GetPath(GetPath(mods)));
    assert ResolveAppDataDirectory(Some(w), host) == appData;
    NormalizeIdempotent(Join(Join(appData, "Saved"), "Logs"));
    NormalizeIdempotent(Join(appData, "TempWorkshop"));
  }

  // ---------------------------------------------------------------------
  // Platform names
  // ---------------------------------------------------------------------

  /** The human platform name: the setting, else "Windows". */
  function HumanPlatformName(s: Option<SettingsFields>): string {
    if s.Some? && s.value.platformName != "" then s.value.platformName else DefaultPlatformName
  }

  /**
   * ResolveUATPlatformName: the lower-cased human name is tested for "win",
   * then "linux", then "mac"; anything else is Win64.
   */
  function ResolveUATPlatformName(s: Option<SettingsFields>): (r: string)
    ensures r == "Win64" || r == "Linux" || r == "Mac"
    ensures var lower := ToLower(HumanPlatformName(s));
      && (r == "Linux" <==> !Contains(lower, "win") && Contains(lower, "linux"))
      && (r == "Mac" <==> !Contains(lower, "win") && !Contains(lower, "linux") && Contains(lower, "mac"))
    ensures HumanPlatformName(s) == DefaultPlatformName ==> r == "Win64"
  {
    var lower := ToLower(HumanPlatformName(s));
    assert ToLower(DefaultPlatformName)[0..3] == "win";
    assert HumanPlatformName(s) == DefaultPlatformName ==> ContainsAt(lower, "win", 0);
    if Contains(lower, "win") then "Win64"
    else if Contains(lower, "linux") then "Linux"
    else if Contains(lower, "mac") then "Mac"
    else "Win64"
  }

  // ---------------------------------------------------------------------
  // The mod's folder and the files in it
  // ---------------------------------------------------------------------

  /**
   * GetModDirectoryPath: `<mods directory>/<folder name>`, normalized, or ""
   * for a null asset. It passes the gate whenever the mods directory does,
   * and by default it is `<Whiskerwood>/Saved/mods/<folder name>`.
   */
  function GetModDirectoryPath(mod: Option<ModInfo>, s: Option<SettingsFields>, host: HostEnv): (r: string)
    ensures mod.None? ==> r == ""
  {
    if mod.None? then ""
    else NormalizeDirectoryName(Join(ResolveModsDirectory(s, host), mod.value.DirName()))
  }

  /** What the mod tools rely on about a mod's folder. */
  lemma {:induction false} ModDirectoryPathFacts(mod: Option<ModInfo>, s: Option<SettingsFields>, host: HostEnv)
    ensures var r := GetModDirectoryPath(mod, s, host);
      && IsNormalizedDirectory(r)
      && (mod.Some? && SafeDestPath(ResolveModsDirectory(s, host)).ok ==> SafeDestPath(r).ok)
      && (mod.Some? && !ModsSet(s) ==> SafeDestPath(r).ok)
      && (mod.Some? && SingleSegment(mod.value.DirName()) ==> r != "" && !IsSeparator(r[|r| - 1]))
      && (mod.Some? && !ModsSet(s) && SingleSegment(mod.value.DirName()) ==>
            r == GetWhiskerwoodModsDirectory(host) + "/" + mod.value.DirName())
  {
    if mod.None? {
      assert NormalizeDirectoryName("") == "";
    } else {
      var mods := ResolveModsDirectory(s, host);
      var dirName := mod.value.DirName();
      ModDirectoryFacts(mods, dirName);
      if !ModsSet(s) && SingleSegment(dirName) {
        ModsLayout(host, dirName);
      }
    }
  }

  lemma {:induction false} ModDirectoryFacts(mods: string, dirName: string)
    ensures var r := NormalizeDirectoryName(Join(mods, dirName));
      && IsNormalizedDirectory(r)
      && (SafeDestPath(mods).ok ==> SafeDestPath(r).ok)
      && (SingleSegment(dirName) ==> r != "" && !IsSeparator(r[|r| - 1]))
  {
    var full := Join(mods, dirName);
    NormalizeIdempotent(full);
    TokenHasNoSeparator();
    if SafeDestPath(mods).ok {
      JoinKeepsToken(mods, dirName, SafetyToken);
      NormalizeKeepsToken(full, SafetyToken);
    }
    if SingleSegment(dirName) {
      NormalizeJoinSegment(mods, dirName);
    }
  }

  lemma {:induction false} ModsLayout(host: HostEnv, dirName: string)
    requires SingleSegment(dirName)
    ensures var mods := GetWhiskerwoodModsDirectory(host);
      NormalizeDirectoryName(Join(mods, dirName)) == mods + "/" + dirName
  {
    var mods := GetWhiskerwoodModsDirectory(host);
    WhiskerwoodRootFacts(host);
    assert NoBackslash(mods);
    assert mods[|mods| - 1] == 's';
    JoinSegmentNormalized(mods, dirName);
  }

  /** `<dir>/<name>.pak`. */
  function PakTarget(dir: string, dirName: string): string {
    Join(dir, dirName + ".pak")
  }

  /** `<dir>/<name>.uplugin`. */
  function DescriptorTarget(dir: string, dirName: string): string {
    Join(dir, dirName + ".uplugin")
  }

  /** A pak and a descriptor never share a filesystem entry. */
  lemma {:induction false} PakAndDescriptorDiffer(a: string, x: string, b: string, y: string)
    ensures Key(PakTarget(a, x)) != Key(DescriptorTarget(b, y))
  {
    var p := PakTarget(a, x);
    var q := DescriptorTarget(b, y);
    assert p[|p| - 1] == 'k';
    assert q[|q| - 1] == 'n';
    assert Key(p)[|p| - 1] != Key(q)[|q| - 1];
  }

  // ---------------------------------------------------------------------
  // The source pak
  // ---------------------------------------------------------------------

  function DigitChar(d: int): char
    requires 0 <= d < 10
  {
    ('0' as int + d) as char
  }

  /** The decimal digits of `n`, as FString::Printf's %d writes them. */
  function Decimal(n: nat): string
    decreases n
  {
    if n < 10 then [DigitChar(n)] else Decimal(n / 10) + [DigitChar(n % 10)]
  }

  /** `pakchunk<chunk>-*.pak`. */
  function PakPattern(chunkId: int): string {
    "pakchunk" + (if chunkId < 0 then "-" + Decimal(-chunkId) else Decimal(chunkId)) + "-*.pak"
  }

  /**
   * The checks MovePakMod and HasSourcePak make before searching: an asset,
   * settings with a project directory, and a usable chunk.
   */
  predicate SearchConfigured(mod: Option<ModInfo>, s: Option<SettingsFields>, effectiveRule: Option<int>) {
    && mod.Some? && s.Some? && s.value.projectDirectory != ""
    && ChunkIdOf(mod.value.chunk, effectiveRule) > 0
  }

  /** The paks of the mod's chunk found under the project directory setting. */
  function FoundPaks(mod: Option<ModInfo>, s: Option<SettingsFields>, find: Finder, effectiveRule: Option<int>): seq<string>
    requires SearchConfigured(mod, s, effectiveRule)
  {
    find(s.value.projectDirectory, PakPattern(ChunkIdOf(mod.value.chunk, effectiveRule)))
  }

  /**
   * HasSourcePak: the search is configured and finds at least one pak. A
   * mod that has one always has a usable chunk.
   */
  function HasSourcePak(mod: Option<ModInfo>, s: Option<SettingsFields>, find: Finder, effectiveRule: Option<int>): (r: bool)
    ensures r <==> SearchConfigured(mod, s, effectiveRule) && FoundPaks(mod, s, find, effectiveRule) != []
    ensures r ==> ChunkIdOf(mod.value.chunk, effectiveRule) > 0
  {
    if mod.None? then false
    else
      var chunkId := ChunkIdOf(mod.value.chunk, effectiveRule);
      if chunkId <= 0 then false
      else if s.None? || s.value.projectDirectory == "" then false
      else find(s.value.projectDirectory, PakPattern(chunkId)) != []
  }

  /**
   * The index of the first candidate whose path contains `hint`, in any
   * letter case, or the number of candidates when none does.
   */
  function FirstContaining(paks: seq<string>, hint: string): (k: nat)
    ensures k <= |paks|
    ensures k < |paks| ==> ContainsIgnoreCase(paks[k], hint)
    ensures forall j :: 0 <= j < k ==> !ContainsIgnoreCase(paks[j], hint)
    decreases |paks|
  {
    if |paks| == 0 then 0
    else if ContainsIgnoreCase(paks[0], hint) then 0
    else 1 + FirstContaining(paks[1..], hint)
  }

  /**
   * The pak MovePakMod copies: the first candidate naming the platform,
   * else the first candidate.
   */
  function PreferredPak(paks: seq<string>, platformName: string): (r: string)
    requires paks != []
    ensures r in paks
    ensures platformName == "" ==> r == paks[0]
    ensures platformName != "" && (exists i :: 0 <= i < |paks| && ContainsIgnoreCase(paks[i], platformName)) ==>
      ContainsIgnoreCase(r, platformName)
    ensures (forall i :: 0 <= i < |paks| ==> !ContainsIgnoreCase(paks[i], platformName)) ==> r == paks[0]
  {
    var k := FirstContaining(paks, platformName);
    if platformName != "" && k < |paks| then paks[k] else paks[0]
  }

  /** The pak selection loop of MovePakMod. */
  method ChooseSourcePak(foundPaks: seq<string>, platformName: string) returns (source: string)
    requires foundPaks != []
    ensures source == PreferredPak(foundPaks, platformName)
  {
    source := foundPaks[0];
    if platformName != "" {
      var i := 0;
      while i < |foundPaks|
        invariant 0 <= i <= FirstContaining(foundPaks, platformName)
        invariant source == foundPaks[0]
      {
        if ContainsIgnoreCase(foundPaks[i], platformName) {
          source := foundPaks[i];
          break;
        }
        i := i + 1;
      }
    }
  }

  /** The pak MovePakMod copies, once the search has found candidates. */
  function SourcePak(mod: Option<ModInfo>, s: Option<SettingsFields>, find: Finder, effectiveRule: Option<int>): string
    requires HasSourcePak(mod, s, find, effectiveRule)
  {
    PreferredPak(FoundPaks(mod, s, find, effectiveRule), s.value.platformName)
  }

  // ---------------------------------------------------------------------
  // The descriptor
  // ---------------------------------------------------------------------

  const RequiredKeys: set<string> := {"Name", "Description", "Version", "CreatedBy"}

  /** SteamAppID is written only for a positive app id in existing settings. */
  predicate AppIdPublished(s: Option<SettingsFields>) {
    s.Some? && s.value.steamAppId > 0
  }

  /**
   * The JSON object WriteModDescriptorJson serializes: the four text fields
   * always, SteamAppID and SteamWorkshopId only when they hold a value, so
   * an optional key never carries an empty placeholder.
   */
  function Descriptor(mod: ModInfo, s: Option<SettingsFields>): (d: map<string, JsonValue>)
    ensures d.Keys == RequiredKeys
      + (if AppIdPublished(s) then {"SteamAppID"} else {})
      + (if mod.steamWorkshopId != "" then {"SteamWorkshopId"} else {})
    ensures d["Name"] == JString(mod.DisplayName())
    ensures d["Description"] == JString(mod.description)
    ensures d["Version"] == JString(mod.version)
    ensures d["CreatedBy"] == JString(mod.createdBy)
    ensures "SteamAppID" in d ==> d["SteamAppID"] == JNumber(s.value.steamAppId)
    ensures "SteamWorkshopId" in d ==> d["SteamWorkshopId"] == JString(mod.steamWorkshopId)
    ensures forall k :: k in d && k !in RequiredKeys ==> d[k] != JString("") && d[k] != JNumber(0)
  {
    var root := map["Name" := JString(mod.DisplayName())];
    var root := root["Description" := JString(mod.description)];
    var root := root["Version" := JString(mod.version)];
    var root := root["CreatedBy" := JString(mod.createdBy)];
    var root := if AppIdPublished(s) then root["SteamAppID" := JNumber(s.value.steamAppId)] else root;
    if mod.steamWorkshopId != "" then root["SteamWorkshopId" := JString(mod.steamWorkshopId)] else root
  }

  /**
   * WriteModDescriptorJson: saved straight to the target path, which is
   * NOT checked by the safety gate; the write is gated only when the path
   * carries the token anyway.
   */
  function WriteDescriptorSpec(st: FsState, mod: Option<ModInfo>, s: Option<SettingsFields>, target: string): (r: Step)
    ensures r.ok <==> mod.Some? && Key(target) !in st.locked
    ensures !r.ok ==> r.fs == st
    ensures r.ok ==> FileExists(r.fs, target) && r.fs.files[Key(target)] == Json(Descriptor(mod.value, s))
    ensures forall k :: k in st.files && k != Key(target) ==> k in r.fs.files && r.fs.files[k] == st.files[k]
    ensures r.fs.files.Keys <= st.files.Keys + {Key(target)}
    ensures r.fs.locked == st.locked && st.dirs <= r.fs.dirs
    ensures ContainsIgnoreCase(target, SafetyToken) ==> Guarded(st, r.fs)
  {
    TokenHasNoSeparator();
    StandardizeKeepsToken(target, SafetyToken);
    if mod.None? then Step(st, false)
    else SaveStringToFilePrim(st, target, Json(Descriptor(mod.value, s)))
  }

  /**
   * Nothing stops the descriptor writer from creating a file outside the
   * Whiskerwood tree: the gate is not consulted.
   */
  lemma {:induction false} DescriptorWriteIsUngated(st: FsState, mod: ModInfo, s: Option<SettingsFields>, target: string)
    requires !ContainsIgnoreCase(target, SafetyToken)
    requires !FileExists(st, target) && Key(target) !in st.locked
    ensures var r := WriteDescriptorSpec(st, Some(mod), s, target);
      r.ok && !Guarded(st, r.fs)
  {
    var r := WriteDescriptorSpec(st, Some(mod), s, target);
    TokenHasNoSeparator();
    StandardizeKeepsToken(target, SafetyToken);
    assert Key(target) in r.fs.files && !ContainsIgnoreCase(Key(target), SafetyToken);
  }

  /** Reading the written descriptor back yields the mod's values. */
  lemma {:induction false} DescriptorRoundTrip(st: FsState, mod: ModInfo, s: Option<SettingsFields>, target: string)
    requires WriteDescriptorSpec(st, Some(mod), s, target).ok
    ensures var r := WriteDescriptorSpec(st, Some(mod), s, target);
      && Key(target) in r.fs.files && r.fs.files[Key(target)].Json?
      && var d := r.fs.files[Key(target)].fields;
      && d["Name"] == JString(mod.DisplayName())
      && d["Description"] == JString(mod.description)
      && d["Version"] == JString(mod.version)
      && d["CreatedBy"] == JString(mod.createdBy)
      && ("SteamWorkshopId" in d <==> mod.steamWorkshopId != "")
      && ("SteamAppID" in d <==> AppIdPublished(s))
  {
    var d := Descriptor(mod, s);
    assert "SteamWorkshopId" in d <==> mod.steamWorkshopId != "";
    assert "SteamAppID" in d <==> AppIdPublished(s);
  }

  // ---------------------------------------------------------------------
  // Status
  // ---------------------------------------------------------------------

  /** IsModMoved: `<mod folder>/<folder name>.pak` exists. */
  predicate IsModMoved(st: FsState, mod: Option<ModInfo>, s: Option<SettingsFields>, host: HostEnv) {
    && mod.Some?
    && GetModDirectoryPath(mod, s, host) != ""
    && FileExists(st, PakTarget(GetModDirectoryPath(mod, s, host), mod.value.DirName()))
  }

  /**
   * With the default mods directory, a mod whose folder name is a single
   * segment is moved exactly when `<mods>/<name>/<name>.pak` exists.
   */
  lemma {:induction false} MovedLayout(st: FsState, mod: ModInfo, s: Option<SettingsFields>, host: HostEnv)
    requires !ModsSet(s) && SingleSegment(mod.DirName())
    ensures var name := mod.DirName();
      IsModMoved(st, Some(mod), s, host) <==>
      FileExists(st, GetWhiskerwoodModsDirectory(host) + "/" + name + "/" + name + ".pak")
  {
    var name := mod.DirName();
    var dir := GetModDirectoryPath(Some(mod), s, host);
    ModDirectoryPathFacts(Some(mod), s, host);
    PakTargetOfSegment(dir, name);
  }

  lemma {:induction false} PakTargetOfSegment(dir: string, name: string)
    requires dir != "" && !IsSeparator(dir[|dir| - 1]) && SingleSegment(name)
    ensures PakTarget(dir, name) == dir + "/" + name + ".pak"
  {
    JoinAppends(dir, name + ".pak");
  }

  /** CanDeployToWorkshop: moved, and a positive Steam app id is set. */
  function CanDeployToWorkshop(st: FsState, mod: Option<ModInfo>, s: Option<SettingsFields>, host: HostEnv): (r: bool)
    ensures r ==> IsModMoved(st, mod, s, host) && AppIdPublished(s)
    ensures IsModMoved(st, mod, s, host) && AppIdPublished(s) ==> r
  {
    if !IsModMoved(st, mod, s, host) then false
    else if s.None? then false
    else s.value.steamAppId > 0
  }

  /**
   * The settings constructor always stores a positive app id, so with
   * constructed settings a moved mod can always be deployed.
   */
  lemma {:induction false} ConstructedSettingsCanDeploy(st: FsState, mod: Option<ModInfo>, stored: SettingsFields, host: HostEnv)
    ensures var s := Some(WithDefaults(stored, host));
      CanDeployToWorkshop(st, mod, s, host) == IsModMoved(st, mod, s, host)
  {
    var w := WithDefaults(stored, host);
    assert w.steamAppId > 0;
  }

  // ---------------------------------------------------------------------
  // MovePakMod
  // ---------------------------------------------------------------------

  /** The mod folder was ensured and the pak copied into it. */
  predicate PakCopied(st: FsState, source: string, modDir: string, dirName: string) {
    var e := EnsureDirectorySpec(st, modDir);
    e.ok && CopySpec(e.fs, source, PakTarget(modDir, dirName), true).ok
  }

  /**
   * MovePakMod from EnsureWhiskerwoodDirectory on: ensure the mod folder,
   * copy the pak into it, write the descriptor beside it. A failing step
   * ends the move but does not undo the steps before it.
   */
  function MoveFilesSpec(st: FsState, source: string, modDir: string, mod: ModInfo, s: Option<SettingsFields>): (r: Step)
    ensures r.ok <==> PakCopied(st, source, modDir, mod.DirName()) && Key(DescriptorTarget(modDir, mod.DirName())) !in st.locked
    ensures PakCopied(st, source, modDir, mod.DirName()) ==>
      var pak := PakTarget(modDir, mod.DirName());
      FileExists(r.fs, pak) && r.fs.files[Key(pak)] == st.files[Key(source)]
    ensures r.ok ==>
      var desc := DescriptorTarget(modDir, mod.DirName());
      FileExists(r.fs, desc) && r.fs.files[Key(desc)] == Json(Descriptor(mod, s))
    ensures r.ok ==> SafeDestPath(modDir).ok
    ensures Guarded(st, r.fs)
  {
    var dirName := mod.DirName();
    var e := EnsureDirectorySpec(st, modDir);
    if !e.ok then Step(e.fs, false)
    else
      var pak := PakTarget(modDir, dirName);
      var c := CopySpec(e.fs, source, pak, true);
      if !c.ok then Step(c.fs, false)
      else
        var desc := DescriptorTarget(modDir, dirName);
        JoinKeepsToken(modDir, dirName + ".uplugin", SafetyToken);
        PakAndDescriptorDiffer(modDir, dirName, modDir, dirName);
        var w := WriteDescriptorSpec(c.fs, Some(mod), s, desc);
        GuardedTrans(st, c.fs, w.fs);
        w
  }

  /**
   * MovePakMod. Nothing on disk changes unless the search finds a pak for
   * the mod's chunk; on success the mod is moved, its pak is the selected
   * build's content and its descriptor sits beside it; and whatever
   * happens, only paths carrying the token are touched.
   */
  function MovePakSpec(st: FsState, mod: Option<ModInfo>, s: Option<SettingsFields>, host: HostEnv,
                       find: Finder, effectiveRule: Option<int>): (r: Step)
    ensures !HasSourcePak(mod, s, find, effectiveRule) ==> r == Step(st, false)
    ensures HasSourcePak(mod, s, find, effectiveRule) ==>
      var source := SourcePak(mod, s, find, effectiveRule);
      var dir := GetModDirectoryPath(mod, s, host);
      && (r.ok <==> FileExists(st, source) && PakCopied(st, source, dir, mod.value.DirName())
                    && Key(DescriptorTarget(dir, mod.value.DirName())) !in st.locked)
      && (FileExists(st, source) ==> r == MoveFilesSpec(st, source, dir, mod.value, s))
    ensures r.ok ==> HasSourcePak(mod, s, find, effectiveRule) && IsModMoved(r.fs, mod, s, host)
    ensures r.ok ==>
      var source := SourcePak(mod, s, find, effectiveRule);
      var pak := PakTarget(GetModDirectoryPath(mod, s, host), mod.value.DirName());
      FileExists(st, source) && r.fs.files[Key(pak)] == st.files[Key(source)]
    ensures r.ok ==>
      var desc := DescriptorTarget(GetModDirectoryPath(mod, s, host), mod.value.DirName());
      FileExists(r.fs, desc) && r.fs.files[Key(desc)] == Json(Descriptor(mod.value, s))
    ensures Guarded(st, r.fs)
  {
    if !HasSourcePak(mod, s, find, effectiveRule) then Step(st, false)
    else
      var source := SourcePak(mod, s, find, effectiveRule);
      if !FileExists(st, source) then Step(st, false)
      else
        var r := MoveFilesSpec(st, source, GetModDirectoryPath(mod, s, host), mod.value, s);
        assert r.ok ==> SafeDestPath(GetModDirectoryPath(mod, s, host)).ok;
        r
  }

  /**
   * A descriptor write that fails after the pak was copied leaves the mod
   * moved: the copy is not rolled back.
   */
  lemma {:induction false} FailedDescriptorKeepsPak(st: FsState, mod: ModInfo, s: Option<SettingsFields>, host: HostEnv,
                                                    find: Finder, effectiveRule: Option<int>)
    requires HasSourcePak(Some(mod), s, find, effectiveRule)
    requires FileExists(st, SourcePak(Some(mod), s, find, effectiveRule))
    requires PakCopied(st, SourcePak(Some(mod), s, find, effectiveRule), GetModDirectoryPath(Some(mod), s, host), mod.DirName())
    ensures IsModMoved(MovePakSpec(st, Some(mod), s, host, find, effectiveRule).fs, Some(mod), s, host)
  {
    var dir := GetModDirectoryPath(Some(mod), s, host);
    var e := EnsureDirectorySpec(st, dir);
    assert e.ok;
    assert dir != "";
  }

  /** MovePakMod over the filesystem object. */
  method MovePakMod(fs: FileSystem, mod: ModSettingsAsset?, settings: EditorUserSettings?, host: HostEnv,
                    find: Finder, effectiveRule: Option<int>) returns (ok: bool)
    modifies fs
    ensures Step(fs.State(), ok) == MovePakSpec(old(fs.State()), InfoOf(mod), FieldsOf(settings), host, find, effectiveRule)
  {
    var found, sourcePakPath := LocateSourcePak(mod, settings, find, effectiveRule);
    if !found {
      return false;
    }
    if !fs.FileExistsNow(sourcePakPath) {
      return false;
    }
    var modDir := GetModDirectoryPath(InfoOf(mod), FieldsOf(settings), host);
    ok := MoveFiles(fs, sourcePakPath, modDir, mod, settings);
  }

  /** The checks and the search of MovePakMod, before it touches the disk. */
  method LocateSourcePak(mod: ModSettingsAsset?, settings: EditorUserSettings?, find: Finder, effectiveRule: Option<int>)
    returns (found: bool, sourcePakPath: string)
    ensures found == HasSourcePak(InfoOf(mod), FieldsOf(settings), find, effectiveRule)
    ensures found ==> sourcePakPath == SourcePak(InfoOf(mod), FieldsOf(settings), find, effectiveRule)
  {
    if mod == null {
      return false, "";
    }
    if settings == null {
      return false, "";
    }
    if settings.projectDirectory == "" {
      return false, "";
    }
    var info := mod.Info();
    var chunkId := ChunkIdOf(info.chunk, effectiveRule);
    if chunkId <= 0 {
      return false, "";
    }
    var projectDir := settings.projectDirectory;
    var platformName := settings.platformName;
    var foundPaks := find(projectDir, PakPattern(chunkId));
    if foundPaks == [] {
      return false, "";
    }
    found := true;
    sourcePakPath := ChooseSourcePak(foundPaks, platformName);
  }

  /** The steps of MovePakMod from EnsureWhiskerwoodDirectory on. */
  method MoveFiles(fs: FileSystem, sourcePakPath: string, modDir: string, mod: ModSettingsAsset, settings: EditorUserSettings?)
    returns (ok: bool)
    modifies fs
    ensures Step(fs.State(), ok) == MoveFilesSpec(old(fs.State()), sourcePakPath, modDir, mod.Info(), FieldsOf(settings))
  {
    var made := EnsureWhiskerwoodDirectory(fs, modDir);
    if !made {
      return false;
    }
    var modDirName := mod.Info().DirName();
    var copied := CopyWhiskerwoodFile(fs, sourcePakPath, PakTarget(modDir, modDirName), true);
    if !copied {
      return false;
    }
    ok := WriteModDescriptorJson(fs, mod, settings, DescriptorTarget(modDir, modDirName));
  }

  /** WriteModDescriptorJson over the filesystem object. */
  method WriteModDescriptorJson(fs: FileSystem, mod: ModSettingsAsset?, settings: EditorUserSettings?, target: string)
    returns (ok: bool)
    modifies fs
    ensures Step(fs.State(), ok) == WriteDescriptorSpec(old(fs.State()), InfoOf(mod), FieldsOf(settings), target)
  {
    if mod == null {
      return false;
    }
    var root := Descriptor(mod.Info(), FieldsOf(settings));
    ok := fs.SaveStringToFile(target, Json(root));
  }

  // ---------------------------------------------------------------------
  // RemoveMovedMod
  // ---------------------------------------------------------------------

  /**
   * RemoveMovedMod: a mod that is not moved is refused with no change;
   * otherwise its folder is deleted through the gate, after which a mod
   * whose folder name is a single segment is no longer moved.
   */
  function RemoveMovedSpec(st: FsState, mod: Option<ModInfo>, s: Option<SettingsFields>, host: HostEnv): (r: Step)
    ensures !IsModMoved(st, mod, s, host) ==> r == Step(st, false)
    ensures IsModMoved(st, mod, s, host) ==> r == DeleteDirectorySpec(st, GetModDirectoryPath(mod, s, host))
    ensures r.ok ==> !DirectoryExists(r.fs, GetModDirectoryPath(mod, s, host))
    ensures r.ok ==> r == DeleteDirectorySpec(st, GetModDirectoryPath(mod, s, host))
    ensures Guarded(st, r.fs)
  {
    if mod.None? || !IsModMoved(st, mod, s, host) then Step(st, false)
    else DeleteDirectorySpec(st, GetModDirectoryPath(mod, s, host))
  }

  /** After a successful removal, a mod whose folder name is a single segment is no longer moved. */
  lemma {:induction false} RemovedModIsNotMoved(st: FsState, mod: Option<ModInfo>, s: Option<SettingsFields>, host: HostEnv)
    requires RemoveMovedSpec(st, mod, s, host).ok
    requires mod.Some? && SingleSegment(mod.value.DirName())
    ensures !IsModMoved(RemoveMovedSpec(st, mod, s, host).fs, mod, s, host)
  {
    var modDir := GetModDirectoryPath(mod, s, host);
    ModDirectoryPathFacts(mod, s, host);
    DeletedFolderDropsPak(st, modDir, mod.value.DirName());
  }

  lemma {:induction false} DeletedFolderDropsPak(st: FsState, dir: string, name: string)
    requires DeleteDirectorySpec(st, dir).ok
    requires dir != "" && !IsSeparator(dir[|dir| - 1]) && SingleSegment(name)
    ensures !FileExists(DeleteDirectorySpec(st, dir).fs, PakTarget(dir, name))
  {
    UnderJoin(dir, name + ".pak");
  }

  /** RemoveMovedMod over the filesystem object. */
  method RemoveMovedMod(fs: FileSystem, mod: ModSettingsAsset?, settings: EditorUserSettings?, host: HostEnv)
    returns (ok: bool)
    modifies fs
    ensures Step(fs.State(), ok) == RemoveMovedSpec(old(fs.State()), InfoOf(mod), FieldsOf(settings), host)
  {
    if mod == null {
      return false;
    }
    if !IsModMoved(fs.State(), InfoOf(mod), FieldsOf(settings), host) {
      return false;
    }
    var modDir := GetModDirectoryPath(InfoOf(mod), FieldsOf(settings), host);
    if modDir == "" {
      return false;
    }
    ok := DeleteWhiskerwoodDirectory(fs, modDir);
  }

  // ---------------------------------------------------------------------
  // DeployModToWorkshopStaging
  // ---------------------------------------------------------------------

  /** The filesystem after staging and the staging folder reported back. */
  datatype Staged = Staged(step: Step, stagingDir: string)

  /**
   * `<Whiskerwood>/WorkshopStaging/<folder name>`: always the game's own
   * folder, whatever the mods directory setting says, and always gated.
   */
  function StagingDirectory(host: HostEnv, dirName: string): (r: string)
    ensures r == Join(Join(WhiskerwoodRoot(host), "WorkshopStaging"), dirName)
    ensures SafeDestPath(r).ok
  {
    var modsDir := GetWhiskerwoodModsDirectory(host);
    WhiskerwoodRootFacts(host);
    StagingKeepsToken(WhiskerwoodRoot(host), dirName);
    Join(Join(GetPath(GetPath(modsDir)), "WorkshopStaging"), dirName)
  }

  lemma {:induction false} StagingKeepsToken(root: string, dirName: string)
    requires ContainsIgnoreCase(root, SafetyToken)
    ensures SafeDestPath(Join(Join(root, "WorkshopStaging"), dirName)).ok
  {
    JoinKeepsToken(root, "WorkshopStaging", SafetyToken);
    JoinKeepsToken(Join(root, "WorkshopStaging"), dirName, SafetyToken);
  }

  /** A mod's staging folder is `<Whiskerwood>/WorkshopStaging/<name>`. */
  lemma {:induction false} StagingLayout(host: HostEnv, dirName: string)
    requires SingleSegment(dirName)
    ensures StagingDirectory(host, dirName) == WhiskerwoodRoot(host) + "/WorkshopStaging/" + dirName
  {
    WhiskerwoodRootFacts(host);
    StagingJoin(WhiskerwoodRoot(host), dirName);
  }

  lemma {:induction false} StagingJoin(root: string, dirName: string)
    requires root != "" && !IsSeparator(root[|root| - 1])
    requires SingleSegment(dirName)
    ensures Join(Join(root, "WorkshopStaging"), dirName) == root + "/WorkshopStaging/" + dirName
  {
    JoinAppends(root, "WorkshopStaging");
    var w := root + "/" + "WorkshopStaging";
    assert w[|w| - 1] == 'g';
    JoinAppends(w, dirName);
  }

  /**
   * The copies of DeployModToWorkshopStaging: the pak always, the
   * descriptor when the mod folder has one; either failing fails the
   * whole, without undoing the other.
   */
  function StageFilesSpec(st: FsState, modDir: string, stagingDir: string, dirName: string): (r: Step)
    ensures var p := CopySpec(st, PakTarget(modDir, dirName), PakTarget(stagingDir, dirName), true);
      r.ok <==> p.ok && (FileExists(st, DescriptorTarget(modDir, dirName)) ==>
                         CopySpec(p.fs, DescriptorTarget(modDir, dirName), DescriptorTarget(stagingDir, dirName), true).ok)
    ensures var p := CopySpec(st, PakTarget(modDir, dirName), PakTarget(stagingDir, dirName), true);
      var desc := DescriptorTarget(stagingDir, dirName);
      FileExists(st, DescriptorTarget(modDir, dirName)) &&
      CopySpec(p.fs, DescriptorTarget(modDir, dirName), desc, true).ok ==>
        FileExists(r.fs, desc) && r.fs.files[Key(desc)] == st.files[Key(DescriptorTarget(modDir, dirName))]
    ensures r.ok ==>
      var pak := PakTarget(stagingDir, dirName);
      FileExists(st, PakTarget(modDir, dirName)) &&
      FileExists(r.fs, pak) && r.fs.files[Key(pak)] == st.files[Key(PakTarget(modDir, dirName))]
    ensures r.ok && FileExists(st, DescriptorTarget(modDir, dirName)) ==>
      var desc := DescriptorTarget(stagingDir, dirName);
      FileExists(r.fs, desc) && r.fs.files[Key(desc)] == st.files[Key(DescriptorTarget(modDir, dirName))]
    ensures Guarded(st, r.fs)
  {
    var srcPak := PakTarget(modDir, dirName);
    var srcDesc := DescriptorTarget(modDir, dirName);
    var dstPak := PakTarget(stagingDir, dirName);
    var dstDesc := DescriptorTarget(stagingDir, dirName);
    PakAndDescriptorDiffer(modDir, dirName, modDir, dirName);
    PakAndDescriptorDiffer(stagingDir, dirName, stagingDir, dirName);
    PakAndDescriptorDiffer(stagingDir, dirName, modDir, dirName);
    var p := CopySpec(st, srcPak, dstPak, true);
    if FileExists(p.fs, srcDesc) then
      var d := CopySpec(p.fs, srcDesc, dstDesc, true);
      GuardedTrans(st, p.fs, d.fs);
      Step(d.fs, p.ok && d.ok)
    else
      Step(p.fs, p.ok)
  }

  /**
   * DeployModToWorkshopStaging: a mod that is not moved is refused with no
   * change. The staging folder is reported exactly when staging succeeds,
   * and then it holds a copy of the moved pak.
   */
  function DeploySpec(st: FsState, mod: Option<ModInfo>, s: Option<SettingsFields>, host: HostEnv): (r: Staged)
    ensures !IsModMoved(st, mod, s, host) ==> r == Staged(Step(st, false), "")
    ensures IsModMoved(st, mod, s, host) ==>
      var name := mod.value.DirName();
      var e := EnsureDirectorySpec(st, StagingDirectory(host, name));
      r.step.ok <==> e.ok && StageFilesSpec(e.fs, GetModDirectoryPath(mod, s, host), StagingDirectory(host, name), name).ok
    ensures r.stagingDir != "" <==> r.step.ok
    ensures r.step.ok ==> mod.Some? && r.stagingDir == StagingDirectory(host, mod.value.DirName())
    ensures r.step.ok ==>
      var name := mod.value.DirName();
      var pak := PakTarget(r.stagingDir, name);
      FileExists(r.step.fs, pak) && r.step.fs.files[Key(pak)] == st.files[Key(PakTarget(GetModDirectoryPath(mod, s, host), name))]
    ensures Guarded(st, r.step.fs)
  {
    if mod.None? || !IsModMoved(st, mod, s, host) then Staged(Step(st, false), "")
    else
      var name := mod.value.DirName();
      var stagingDir := StagingDirectory(host, name);
      var e := EnsureDirectorySpec(st, stagingDir);
      if !e.ok then Staged(Step(e.fs, false), "")
      else
        var f := StageFilesSpec(e.fs, GetModDirectoryPath(mod, s, host), stagingDir, name);
        GuardedTrans(st, e.fs, f.fs);
        if !f.ok then Staged(f, "") else Staged(f, stagingDir)
  }

  /** DeployModToWorkshopStaging over the filesystem object. */
  method DeployModToWorkshopStaging(fs: FileSystem, mod: ModSettingsAsset?, settings: EditorUserSettings?, host: HostEnv)
    returns (ok: bool, outStagingDir: string)
    modifies fs
    ensures Staged(Step(fs.State(), ok), outStagingDir) == DeploySpec(old(fs.State()), InfoOf(mod), FieldsOf(settings), host)
  {
    outStagingDir := "";
    if mod == null {
      return false, outStagingDir;
    }
    if !IsModMoved(fs.State(), InfoOf(mod), FieldsOf(settings), host) {
      return false, outStagingDir;
    }
    var modsDir := GetWhiskerwoodModsDirectory(host);
    if modsDir == "" {
      return false, outStagingDir;
    }
    var savedDir := GetPath(modsDir);
    var gameRootDir := GetPath(savedDir);
    var workshopRoot := Join(gameRootDir, "WorkshopStaging");
    var modDirName := mod.Info().DirName();
    var stagingDir := Join(workshopRoot, modDirName);
    var made := EnsureWhiskerwoodDirectory(fs, stagingDir);
    if !made {
      return false, outStagingDir;
    }
    var sourceModDir := GetModDirectoryPath(InfoOf(mod), FieldsOf(settings), host);
    ok := StageFiles(fs, sourceModDir, stagingDir, modDirName);
    if !ok {
      return false, outStagingDir;
    }
    outStagingDir := stagingDir;
  }

  /** The copies of DeployModToWorkshopStaging, with the accumulated flag. */
  method StageFiles(fs: FileSystem, sourceModDir: string, stagingDir: string, modDirName: string) returns (ok: bool)
    modifies fs
    ensures Step(fs.State(), ok) == StageFilesSpec(old(fs.State()), sourceModDir, stagingDir, modDirName)
  {
    var sourcePakPath := PakTarget(sourceModDir, modDirName);
    var sourceDescriptorPath := DescriptorTarget(sourceModDir, modDirName);
    var targetPakPath := PakTarget(stagingDir, modDirName);
    var targetDescriptorPath := DescriptorTarget(stagingDir, modDirName);
    ok := true;
    var pakCopied := CopyWhiskerwoodFile(fs, sourcePakPath, targetPakPath, true);
    if !pakCopied {
      ok := false;
    }
    if fs.FileExistsNow(sourceDescriptorPath) {
      var descriptorCopied := CopyWhiskerwoodFile(fs, sourceDescriptorPath, targetDescriptorPath, true);
      if !descriptorCopied {
        ok := false;
      }
    }
  }

  // ---------------------------------------------------------------------
  // RunPackagingForMod
  // ---------------------------------------------------------------------

  /**
   * The platform token RunPackagingForMod passes to the packaging tool.
   * Every branch of its mapping, the fallback included, yields Win64.
   */
  function PackagingPlatformName(s: Option<SettingsFields>): (r: string)
    ensures r == "Win64"
  {
    var userPlatformName := HumanPlatformName(s);
    if EqualsIgnoreCase(userPlatformName, "Win64") then "Win64"
    else if EqualsIgnoreCase(userPlatformName, "Windows") || EqualsIgnoreCase(userPlatformName, "WindowsNoEditor") then "Win64"
    else "Win64"
  }

  /** The BuildCookRun command line for a project file and platform token. */
  function PackagingCommandLine(projectFile: string, platform: string): string {
    "BuildCookRun -project=\"" + projectFile + "\" -noP4 -clientconfig=Development -serverconfig=Development "
    + "-nocompile -stage -pak -package -platform=" + platform + " -cook -skipeditorcontent"
  }

  /**
   * RunPackagingForMod, with the engine's answers as parameters: whether
   * RunUAT.bat exists, the full project file path, and the exit code the
   * tool returns for a command line (None when it cannot be started).
   */
  function RunPackagingForMod(uatExists: bool, projectFile: string, s: Option<SettingsFields>,
                              exitCode: string -> Option<int>): (r: bool)
    ensures r <==> uatExists && projectFile != "" && exitCode(PackagingCommandLine(projectFile, "Win64")) == Some(0)
  {
    if !uatExists then false
    else if projectFile == "" then false
    else
      var code := exitCode(PackagingCommandLine(projectFile, PackagingPlatformName(s)));
      code.Some? && code.value == 0
  }

  /**
   * Packaging ignores the platform mapping of ResolveUATPlatformName: a
   * user who names Linux is told "Linux" there, yet is packaged for Win64.
   */
  lemma PackagingIgnoresResolvedPlatform(stored: SettingsFields)
    requires stored.platformName == "Linux"
    ensures ResolveUATPlatformName(Some(stored)) == "Linux"
    ensures PackagingPlatformName(Some(stored)) == "Win64"
  {
    var lower := ToLower("Linux");
    assert lower == "linux";
    assert ContainsAt(lower, "linux", 0);
    forall i | 0 <= i <= |lower| - 3
      ensures !ContainsAt(lower, "win", i)
    {
      assert lower[i] != 'w';
      assert lower[i..i + 3][0] == lower[i];
    }
  }
}
