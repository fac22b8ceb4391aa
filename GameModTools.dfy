/**
 * The game module's copy of the mod tools library. Every entry point is
 * compiled for editor builds only: `editorBuild` stands for WITH_EDITOR,
 * and without it each entry point answers "" or false (or an empty list)
 * and touches nothing.
 *
 * The game module's mod asset and user settings are read, never written,
 * by this library, so they are values here: `None` is a null pointer. The
 * game module's GetWhiskerwoodModsDirectory is not part of this model; its
 * answer is the parameter `modsDir`. The asset registry's answer, each
 * asset loaded and cast to the mod settings class (or `None` when that
 * fails), is the parameter `loaded`.
 */
module GameModTools {
  import opened Common
  import opened Paths
  import opened Platform
  import opened FileIO
  import GameFileIO
  import ModSettings
  import UserSettings
  import ModTools

  /** The fields of the game's mod settings asset that the library reads. */
  datatype GameModAsset = GameModAsset(
    assetName: string,   // GetName()
    modName: string,
    description: string,
    version: string,
    createdBy: string,
    modDirName: string,
    chunkId: int
  ) {
    /** The mod's folder name: ModDirName, or the asset name when empty. */
    function DirName(): string {
      if modDirName == "" then assetName else modDirName
    }

    /** The mod's display name: ModName, or the asset name when empty. */
    function DisplayName(): string {
      if modName == "" then assetName else modName
    }
  }

  /** The fields of the game module's editor user settings read here. */
  datatype GameSettings = GameSettings(projectDir: string, appDataDir: string, platformDir: string)

  // ---------------------------------------------------------------------
  // Listing the mods
  // ---------------------------------------------------------------------

  /** The loaded assets that are mod settings, in the registry's order. */
  function ModSettingsOf(loaded: seq<Option<GameModAsset>>): (r: seq<GameModAsset>)
    ensures |r| <= |loaded|
    ensures forall a :: a in r ==> Some(a) in loaded
    decreases |loaded|
  {
    if loaded == [] then []
    else
      var init := loaded[..|loaded| - 1];
      assert forall x :: x in init ==> x in loaded;
      var rest := ModSettingsOf(init);
      match loaded[|loaded| - 1]
      case None => rest
      case Some(a) => rest + [a]
  }

  /** No mod settings asset that loads is dropped from the list. */
  lemma {:induction false} ModSettingsOfComplete(loaded: seq<Option<GameModAsset>>, a: GameModAsset)
    requires Some(a) in loaded
    ensures a in ModSettingsOf(loaded)
    decreases |loaded|
  {
    var init := loaded[..|loaded| - 1];
    if loaded[|loaded| - 1] != Some(a) {
      assert loaded == init + [loaded[|loaded| - 1]];
      assert Some(a) in init;
      ModSettingsOfComplete(init, a);
    }
  }

  /** GetAllWhiskerwoodModSettings. */
  method GetAllWhiskerwoodModSettings(editorBuild: bool, loaded: seq<Option<GameModAsset>>)
    returns (outModSettings: seq<GameModAsset>)
    ensures editorBuild ==> outModSettings == ModSettingsOf(loaded)
    ensures !editorBuild ==> outModSettings == []
  {
    outModSettings := [];
    if !editorBuild {
      return;
    }
    var i := 0;
    while i < |loaded|
      invariant 0 <= i <= |loaded|
      invariant outModSettings == ModSettingsOf(loaded[..i])
    {
      assert loaded[..i + 1][..i] == loaded[..i];
      if loaded[i].Some? {
        outModSettings := outModSettings + [loaded[i].value];
      }
      i := i + 1;
    }
    assert loaded[..i] == loaded;
  }

  /** One row of the dashboard's mod list. */
  datatype GameModListItem = GameModListItem(
    settings: GameModAsset,
    modName: string,
    chunkId: int,
    modDirectoryPath: string
  )

  /** The list item GetAllModListItems builds for one mod. */
  function ItemOf(a: GameModAsset, modsDir: string): GameModListItem {
    GameModListItem(a, a.DisplayName(), a.chunkId, GetModDirectoryPath(true, Some(a), modsDir))
  }

  function ItemsOf(mods: seq<GameModAsset>, modsDir: string): seq<GameModListItem> {
    seq(|mods|, i requires 0 <= i < |mods| => ItemOf(mods[i], modsDir))
  }

  lemma ItemsOfSnoc(mods: seq<GameModAsset>, a: GameModAsset, modsDir: string)
    ensures ItemsOf(mods + [a], modsDir) == ItemsOf(mods, modsDir) + [ItemOf(a, modsDir)]
  {
    assert forall i :: 0 <= i < |mods| ==> (mods + [a])[i] == mods[i];
  }

  /**
   * GetAllModListItems: one item per loaded mod settings asset, in order,
   * named by its display name and pointing at its mod folder.
   */
  method GetAllModListItems(editorBuild: bool, loaded: seq<Option<GameModAsset>>, modsDir: string)
    returns (outItems: seq<GameModListItem>)
    ensures editorBuild ==> outItems == ItemsOf(ModSettingsOf(loaded), modsDir)
    ensures !editorBuild ==> outItems == []
  {
    outItems := [];
    if !editorBuild {
      return;
    }
    var i := 0;
    while i < |loaded|
      invariant 0 <= i <= |loaded|
      invariant outItems == ItemsOf(ModSettingsOf(loaded[..i]), modsDir)
    {
      assert loaded[..i + 1][..i] == loaded[..i];
      if loaded[i].Some? {
        var modSettings := loaded[i].value;
        var item := GameModListItem(modSettings, modSettings.DisplayName(), modSettings.chunkId,
                                    GetModDirectoryPath(true, Some(modSettings), modsDir));
        assert item == ItemOf(modSettings, modsDir);
        ItemsOfSnoc(ModSettingsOf(loaded[..i]), modSettings, modsDir);
        outItems := outItems + [item];
      }
      i := i + 1;
    }
    assert loaded[..i] == loaded;
  }

  /** Every mod settings asset that loads has its own item in the list. */
  lemma {:induction false} EveryLoadedModIsListed(loaded: seq<Option<GameModAsset>>, modsDir: string, a: GameModAsset)
    requires Some(a) in loaded
    ensures ItemOf(a, modsDir) in ItemsOf(ModSettingsOf(loaded), modsDir)
  {
    var mods := ModSettingsOf(loaded);
    ModSettingsOfComplete(loaded, a);
    var i :| 0 <= i < |mods| && mods[i] == a;
    assert ItemsOf(mods, modsDir)[i] == ItemOf(a, modsDir);
  }

  // ---------------------------------------------------------------------
  // The mod's folder
  // ---------------------------------------------------------------------

  /**
   * GetModDirectoryPath: `<mods directory>/<folder name>`, normalized; ""
   * for a null asset or outside an editor build.
   */
  function GetModDirectoryPath(editorBuild: bool, mod: Option<GameModAsset>, modsDir: string): (r: string)
    ensures !editorBuild || mod.None? ==> r == ""
  {
    if !editorBuild || mod.None? then ""
    else NormalizeDirectoryName(Join(modsDir, mod.value.DirName()))
  }

  /**
   * The folder is normalized, passes the gate whenever the mods directory
   * does, and under the game's mods directory a single-segment folder name
   * gives `<mods>/<name>`.
   */
  lemma {:induction false} ModDirectoryFacts(mod: GameModAsset, modsDir: string, host: HostEnv)
    ensures var r := GetModDirectoryPath(true, Some(mod), modsDir);
      && IsNormalizedDirectory(r)
      && (SafeDestPath(modsDir).ok ==> SafeDestPath(r).ok)
      && (modsDir == GetWhiskerwoodModsDirectory(host) && SingleSegment(mod.DirName()) ==>
            r == modsDir + "/" + mod.DirName())
  {
    ModTools.ModDirectoryFacts(modsDir, mod.DirName());
    if modsDir == GetWhiskerwoodModsDirectory(host) && SingleSegment(mod.DirName()) {
      ModTools.ModsLayout(host, mod.DirName());
    }
  }

  /** The plugin and the game module agree on a mod's fields. */
  predicate SameMod(mod: GameModAsset, info: ModSettings.ModInfo) {
    && info.assetName == mod.assetName
    && info.modName == mod.modName
    && info.description == mod.description
    && info.version == mod.version
    && info.createdBy == mod.createdBy
    && info.modDirName == mod.modDirName
  }

  /**
   * With the plugin's mods setting empty, both copies put a mod in the same
   * folder under the game's mods directory.
   */
  lemma {:induction false} ModDirectoryMatchesPlugin(mod: GameModAsset, info: ModSettings.ModInfo,
                                                     s: Option<UserSettings.SettingsFields>, host: HostEnv)
    requires SameMod(mod, info) && !ModTools.ModsSet(s)
    ensures GetModDirectoryPath(true, Some(mod), GetWhiskerwoodModsDirectory(host))
         == ModTools.GetModDirectoryPath(Some(info), s, host)
  {
    assert ModTools.ResolveModsDirectory(s, host) == GetWhiskerwoodModsDirectory(host);
  }

  // ---------------------------------------------------------------------
  // The descriptor
  // ---------------------------------------------------------------------

  /** The game module's descriptor: exactly the four text keys. */
  function Descriptor(mod: GameModAsset): (d: map<string, JsonValue>)
    ensures d.Keys == ModTools.RequiredKeys
    ensures d["Name"] == JString(mod.DisplayName())
    ensures d["Description"] == JString(mod.description)
    ensures d["Version"] == JString(mod.version)
    ensures d["CreatedBy"] == JString(mod.createdBy)
  {
    map["Name" := JString(mod.DisplayName()),
        "Description" := JString(mod.description),
        "Version" := JString(mod.version),
        "CreatedBy" := JString(mod.createdBy)]
  }

  /**
   * The game's descriptor is the plugin's without the Steam keys: they
   * agree on the four shared keys, and are equal when the plugin has no
   * app id to publish and no workshop id.
   */
  lemma {:induction false} DescriptorIsPluginsCore(mod: GameModAsset, info: ModSettings.ModInfo,
                                                   s: Option<UserSettings.SettingsFields>)
    requires SameMod(mod, info)
    ensures forall k :: k in ModTools.RequiredKeys ==> ModTools.Descriptor(info, s)[k] == Descriptor(mod)[k]
    ensures !ModTools.AppIdPublished(s) && info.steamWorkshopId == "" ==> ModTools.Descriptor(info, s) == Descriptor(mod)
  {
    var p := ModTools.Descriptor(info, s);
    var g := Descriptor(mod);
    assert info.DisplayName() == mod.DisplayName();
    if !ModTools.AppIdPublished(s) && info.steamWorkshopId == "" {
      assert p.Keys == g.Keys;
    }
  }

  /**
   * WriteModDescriptorJson: saved straight to the target path without the
   * safety gate; false for a null asset or outside an editor build.
   */
  function WriteDescriptorSpec(st: FsState, editorBuild: bool, mod: Option<GameModAsset>, target: string): (r: Step)
    ensures r.ok <==> editorBuild && mod.Some? && Key(target) !in st.locked
    ensures !r.ok ==> r.fs == st
    ensures r.ok ==> FileExists(r.fs, target) && r.fs.files[Key(target)] == Json(Descriptor(mod.value))
    ensures forall k :: k in st.files && k != Key(target) ==> k in r.fs.files && r.fs.files[k] == st.files[k]
    ensures r.fs.files.Keys <= st.files.Keys + {Key(target)}
    ensures r.fs.locked == st.locked && st.dirs <= r.fs.dirs
    ensures ContainsIgnoreCase(target, SafetyToken) ==> Guarded(st, r.fs)
  {
    TokenHasNoSeparator();
    StandardizeKeepsToken(target, SafetyToken);
    if !editorBuild || mod.None? then Step(st, false)
    else SaveStringToFilePrim(st, target, Json(Descriptor(mod.value)))
  }

  /** WriteModDescriptorJson over the filesystem object. */
  method WriteModDescriptorJson(fs: FileSystem, editorBuild: bool, mod: Option<GameModAsset>, target: string)
    returns (ok: bool)
    modifies fs
    ensures Step(fs.State(), ok) == WriteDescriptorSpec(old(fs.State()), editorBuild, mod, target)
  {
    if !editorBuild {
      return false;
    }
    if mod.None? {
      return false;
    }
    var root := Descriptor(mod.value);
    ok := fs.SaveStringToFile(target, Json(root));
  }

  // ---------------------------------------------------------------------
  // PakAndMoveMod
  // ---------------------------------------------------------------------

  /**
   * The checks PakAndMoveMod makes before it searches: an asset, settings
   * with a project directory, and a positive chunk. An empty platform or
   * AppData setting is only warned about.
   */
  predicate SearchConfigured(mod: Option<GameModAsset>, s: Option<GameSettings>) {
    mod.Some? && s.Some? && s.value.projectDir != "" && mod.value.chunkId > 0
  }

  /** The paks of the mod's chunk found under the project directory. */
  function FoundPaks(mod: Option<GameModAsset>, s: Option<GameSettings>, find: ModTools.Finder): seq<string>
    requires SearchConfigured(mod, s)
  {
    find(s.value.projectDir, ModTools.PakPattern(mod.value.chunkId))
  }

  predicate HasSourcePak(mod: Option<GameModAsset>, s: Option<GameSettings>, find: ModTools.Finder) {
    SearchConfigured(mod, s) && FoundPaks(mod, s, find) != []
  }

  /** The pak PakAndMoveMod copies: the plugin's selection rule. */
  function SourcePak(mod: Option<GameModAsset>, s: Option<GameSettings>, find: ModTools.Finder): string
    requires HasSourcePak(mod, s, find)
  {
    ModTools.PreferredPak(FoundPaks(mod, s, find), s.value.platformDir)
  }

  /**
   * PakAndMoveMod from EnsureWhiskerwoodDirectory on: ensure the mod
   * folder, copy the pak into it, then write the descriptor beside it. A
   * failing step ends the move without undoing the steps before it.
   */
  function MoveFilesSpec(st: FsState, source: string, modDir: string, mod: GameModAsset): (r: Step)
    ensures r.ok <==> ModTools.PakCopied(st, source, modDir, mod.DirName())
                      && Key(ModTools.DescriptorTarget(modDir, mod.DirName())) !in st.locked
    ensures ModTools.PakCopied(st, source, modDir, mod.DirName()) ==>
      var pak := ModTools.PakTarget(modDir, mod.DirName());
      FileExists(r.fs, pak) && r.fs.files[Key(pak)] == st.files[Key(source)]
    ensures r.ok ==>
      var desc := ModTools.DescriptorTarget(modDir, mod.DirName());
      FileExists(r.fs, desc) && r.fs.files[Key(desc)] == Json(Descriptor(mod))
    ensures Guarded(st, r.fs)
  {
    var dirName := mod.DirName();
    var e := EnsureDirectorySpec(st, modDir);
    if !e.ok then Step(e.fs, false)
    else
      var pak := ModTools.PakTarget(modDir, dirName);
      var c := CopySpec(e.fs, source, pak, true);
      if !c.ok then Step(c.fs, false)
      else
        var desc := ModTools.DescriptorTarget(modDir, dirName);
        JoinKeepsToken(modDir, dirName + ".uplugin", SafetyToken);
        ModTools.PakAndDescriptorDiffer(modDir, dirName, modDir, dirName);
        var w := WriteDescriptorSpec(c.fs, true, Some(mod), desc);
        GuardedTrans(st, c.fs, w.fs);
        w
  }

  /**
   * PakAndMoveMod. Nothing changes outside an editor build or unless the
   * search finds a pak for the mod's chunk; on success the pak in the mod
   * folder is the selected build's content and the descriptor sits beside
   * it; whatever happens, only paths carrying the token are touched.
   */
  function PakAndMoveSpec(st: FsState, editorBuild: bool, mod: Option<GameModAsset>, s: Option<GameSettings>,
                          modsDir: string, find: ModTools.Finder): (r: Step)
    ensures !editorBuild || !HasSourcePak(mod, s, find) ==> r == Step(st, false)
    ensures editorBuild && HasSourcePak(mod, s, find) ==>
      var source := SourcePak(mod, s, find);
      var dir := GetModDirectoryPath(true, mod, modsDir);
      && (r.ok <==> FileExists(st, source) && ModTools.PakCopied(st, source, dir, mod.value.DirName())
                    && Key(ModTools.DescriptorTarget(dir, mod.value.DirName())) !in st.locked)
      && (FileExists(st, source) ==> r == MoveFilesSpec(st, source, dir, mod.value))
    ensures r.ok ==> editorBuild && HasSourcePak(mod, s, find)
    ensures r.ok ==>
      var source := SourcePak(mod, s, find);
      var pak := ModTools.PakTarget(GetModDirectoryPath(true, mod, modsDir), mod.value.DirName());
      FileExists(st, source) && FileExists(r.fs, pak) && r.fs.files[Key(pak)] == st.files[Key(source)]
    ensures r.ok ==>
      var desc := ModTools.DescriptorTarget(GetModDirectoryPath(true, mod, modsDir), mod.value.DirName());
      FileExists(r.fs, desc) && r.fs.files[Key(desc)] == Json(Descriptor(mod.value))
    ensures Guarded(st, r.fs)
  {
    if !editorBuild || !HasSourcePak(mod, s, find) then Step(st, false)
    else
      var source := SourcePak(mod, s, find);
      if !FileExists(st, source) then Step(st, false)
      else MoveFilesSpec(st, source, GetModDirectoryPath(true, mod, modsDir), mod.value)
  }

  /**
   * A copy that fails stops the move before the descriptor is written: no
   * file is added or changed.
   */
  lemma {:induction false} FailedCopySkipsDescriptor(st: FsState, mod: GameModAsset, s: Option<GameSettings>,
                                                     modsDir: string, find: ModTools.Finder)
    requires HasSourcePak(Some(mod), s, find)
    requires !ModTools.PakCopied(st, SourcePak(Some(mod), s, find), GetModDirectoryPath(true, Some(mod), modsDir), mod.DirName())
    ensures var r := PakAndMoveSpec(st, true, Some(mod), s, modsDir, find);
      !r.ok && r.fs.files == st.files
  {
    var source := SourcePak(Some(mod), s, find);
    var dir := GetModDirectoryPath(true, Some(mod), modsDir);
    if FileExists(st, source) {
      var e := EnsureDirectorySpec(st, dir);
      if e.ok {
        var c := CopySpec(e.fs, source, ModTools.PakTarget(dir, mod.DirName()), true);
        assert !c.ok;
        assert c.fs.files == e.fs.files;
      }
    }
  }

  /**
   * A descriptor write that fails after the copy leaves the pak in place:
   * the copy is not rolled back.
   */
  lemma {:induction false} FailedDescriptorKeepsPak(st: FsState, mod: GameModAsset, s: Option<GameSettings>,
                                                    modsDir: string, find: ModTools.Finder)
    requires HasSourcePak(Some(mod), s, find)
    requires FileExists(st, SourcePak(Some(mod), s, find))
    requires ModTools.PakCopied(st, SourcePak(Some(mod), s, find), GetModDirectoryPath(true, Some(mod), modsDir), mod.DirName())
    ensures var r := PakAndMoveSpec(st, true, Some(mod), s, modsDir, find);
      FileExists(r.fs, ModTools.PakTarget(GetModDirectoryPath(true, Some(mod), modsDir), mod.DirName()))
  {
  }

  /**
   * The AppData setting is only warned about: it never changes what
   * PakAndMoveMod does. An empty platform setting takes the first pak.
   */
  lemma {:induction false} WarnedSettingsDoNotBlock(st: FsState, editorBuild: bool, mod: Option<GameModAsset>, g: GameSettings,
                                                    appDataDir: string, modsDir: string, find: ModTools.Finder)
    ensures PakAndMoveSpec(st, editorBuild, mod, Some(g), modsDir, find)
         == PakAndMoveSpec(st, editorBuild, mod, Some(g.(appDataDir := appDataDir)), modsDir, find)
    ensures g.platformDir == "" && HasSourcePak(mod, Some(g), find) ==>
      SourcePak(mod, Some(g), find) == FoundPaks(mod, Some(g), find)[0]
  {
    var h := g.(appDataDir := appDataDir);
    assert SearchConfigured(mod, Some(g)) == SearchConfigured(mod, Some(h));
    if SearchConfigured(mod, Some(g)) {
      assert FoundPaks(mod, Some(g), find) == FoundPaks(mod, Some(h), find);
    }
  }

  /** PakAndMoveMod over the filesystem object. */
  method PakAndMoveMod(fs: FileSystem, editorBuild: bool, mod: Option<GameModAsset>, settings: Option<GameSettings>,
                       modsDir: string, find: ModTools.Finder) returns (ok: bool)
    modifies fs
    ensures Step(fs.State(), ok) == PakAndMoveSpec(old(fs.State()), editorBuild, mod, settings, modsDir, find)
  {
    var found, sourcePakPath := LocateSourcePak(editorBuild, mod, settings, find);
    if !found {
      return false;
    }
    if !fs.FileExistsNow(sourcePakPath) {
      return false;
    }
    var modDir := GetModDirectoryPath(true, mod, modsDir);
    ok := MoveFiles(fs, sourcePakPath, modDir, mod.value);
  }

  /** The checks and the search of PakAndMoveMod, before it touches the disk. */
  method LocateSourcePak(editorBuild: bool, mod: Option<GameModAsset>, settings: Option<GameSettings>, find: ModTools.Finder)
    returns (found: bool, sourcePakPath: string)
    ensures found == (editorBuild && HasSourcePak(mod, settings, find))
    ensures found ==> sourcePakPath == SourcePak(mod, settings, find)
  {
    if !editorBuild || mod.None? || settings.None? {
      return false, "";
    }
    if settings.value.projectDir == "" {
      return false, "";
    }
    if mod.value.chunkId <= 0 {
      return false, "";
    }
    var projectDir := settings.value.projectDir;
    var platformName := settings.value.platformDir;
    var foundPaks := find(projectDir, ModTools.PakPattern(mod.value.chunkId));
    if foundPaks == [] {
      return false, "";
    }
    found := true;
    sourcePakPath := ModTools.ChooseSourcePak(foundPaks, platformName);
  }

  /** The steps of PakAndMoveMod from EnsureWhiskerwoodDirectory on. */
  method MoveFiles(fs: FileSystem, sourcePakPath: string, modDir: string, mod: GameModAsset) returns (ok: bool)
    modifies fs
    ensures Step(fs.State(), ok) == MoveFilesSpec(old(fs.State()), sourcePakPath, modDir, mod)
  {
    var made := GameFileIO.EnsureWhiskerwoodDirectory(fs, modDir);
    if !made {
      return false;
    }
    var modDirName := mod.DirName();
    var copied := GameFileIO.CopyWhiskerwoodFile(fs, sourcePakPath, ModTools.PakTarget(modDir, modDirName), true);
    if !copied {
      return false;
    }
    ok := WriteModDescriptorJson(fs, true, Some(mod), ModTools.DescriptorTarget(modDir, modDirName));
  }

  // ---------------------------------------------------------------------
  // RunPackagingForMod
  // ---------------------------------------------------------------------

  /**
   * The platform token RunPackagingForMod passes to the packaging tool:
   * the user's name (by default "Windows") goes through a mapping whose
   * every branch, the fallback included, yields Win64.
   */
  function PackagingPlatformName(s: Option<GameSettings>): (r: string)
    ensures r == "Win64"
  {
    var userPlatformName := if s.Some? && s.value.platformDir != "" then s.value.platformDir else "Windows";
    if userPlatformName == "" then "Win64"
    else if EqualsIgnoreCase(userPlatformName, "Win64") then "Win64"
    else if EqualsIgnoreCase(userPlatformName, "Windows") || EqualsIgnoreCase(userPlatformName, "WindowsNoEditor") then "Win64"
    else "Win64"
  }

  /**
   * RunPackagingForMod, with the engine's answers as parameters: whether
   * RunUAT.bat exists, the full project file path, and the exit code the
   * tool returns for a command line (None when it cannot be started).
   */
  function RunPackagingForMod(editorBuild: bool, uatExists: bool, projectFile: string, s: Option<GameSettings>,
                              exitCode: string -> Option<int>): (r: bool)
    ensures r <==> editorBuild && uatExists && projectFile != ""
                   && exitCode(ModTools.PackagingCommandLine(projectFile, "Win64")) == Some(0)
  {
    if !editorBuild || !uatExists || projectFile == "" then false
    else
      var code := exitCode(ModTools.PackagingCommandLine(projectFile, PackagingPlatformName(s)));
      code.Some? && code.value == 0
  }

  /** In an editor build, both copies of RunPackagingForMod give the same answer, whatever either's settings. */
  lemma PackagingMatchesPlugin(uatExists: bool, projectFile: string, s: Option<GameSettings>,
                               ps: Option<UserSettings.SettingsFields>, exitCode: string -> Option<int>)
    ensures RunPackagingForMod(true, uatExists, projectFile, s, exitCode)
         == ModTools.RunPackagingForMod(uatExists, projectFile, ps, exitCode)
  {
  }

  // ---------------------------------------------------------------------
  // Non-editor builds
  // ---------------------------------------------------------------------

  /** Outside an editor build every entry point answers "" or false and changes nothing. */
  lemma NonEditorBuildIsInert(st: FsState, mod: Option<GameModAsset>, s: Option<GameSettings>, modsDir: string,
                              target: string, find: ModTools.Finder, uatExists: bool, projectFile: string,
                              exitCode: string -> Option<int>)
    ensures GetModDirectoryPath(false, mod, modsDir) == ""
    ensures WriteDescriptorSpec(st, false, mod, target) == Step(st, false)
    ensures PakAndMoveSpec(st, false, mod, s, modsDir, find) == Step(st, false)
    ensures !RunPackagingForMod(false, uatExists, projectFile, s, exitCode)
  {
  }
}
