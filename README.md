# Whiskerwood mod tools, modelled in Dafny

Whiskerwood's mod tools are an Unreal editor plugin plus a twin library in the
game module. Together they take a mod author from a packaged build to the
game's mods folder and then to a Steam Workshop staging folder. This project
models the decision and bookkeeping logic of those tools and proves what it
promises.

The model covers:

- **Chunk resolution.** The mod settings asset decides which pak chunk a mod
  uses: the override, then `Rules.ChunkId`, then the legacy field, then the
  asset manager's rule, else -1. `PostLoad` migrates the legacy field, and
  editing it rewrites the rules.
- **Editor user settings.** The settings derive their defaults on first run:
  project, mods, AppData, logs and temp directories, the platform name and
  the Steam app id.
- **Path resolution.** Each `Resolve*Directory` takes the setting, else a
  fallback. `ResolveUATPlatformName` maps the human platform name to a build
  token. The pak search prefers a candidate naming the platform.
- **The safety gate.** Every destination written, copied to or deleted must
  contain `whiskerwood`. This covers both copies of the file library, over an
  abstract filesystem (`Platform.FileSystem`, a class holding files,
  directories and paths the OS refuses to write).
- **The plugin's mod life cycle.** `MovePakMod` copies the pak and writes the
  `.uplugin` descriptor. `IsModMoved` and `CanDeployToWorkshop` report the
  state. `RemoveMovedMod` deletes the mod folder.
  `DeployModToWorkshopStaging` copies the moved files to
  `<Whiskerwood>/WorkshopStaging/<name>`. `RunPackagingForMod` builds its
  command line.
- **The mod list row.** The row's status text and its three buttons, the
  text-box helpers, and the basic settings form that writes back into the
  user settings.
- **The log watcher subsystem.** It keeps one `(LastLineCount, bHadFile)`
  state per watched log and broadcasts only the appended lines.
- **The page switcher widget.** A page table built from the widget switcher's
  children, with first-match lookups and an active page id.
- **The game module's library.** The game copy of the library: the mod list,
  the mod folder, the four-key descriptor, `PakAndMoveMod` and the
  packaging platform token. Every entry point is inert in non-editor builds.

Engine queries become parameters:

- the host environment (`LOCALAPPDATA`, the project and Saved directories);
- `FindFilesRecursive` (a `Finder` from directory and pattern to paths);
- the asset manager's effective chunk rule (`Option<int>`);
- `FCString::Atoi`;
- the lines of each log file (`LogFiles`);
- the packaging tool's exit code;
- the asset registry's answer;
- WITH_EDITOR (`editorBuild`).

### Where the code and its documentation differ

The model follows the code in each case.

- **Platform matching ignores case.** The pak search calls `FString::Contains`
  without a case argument, and that defaults to ignoring case. So a candidate
  matches the platform name in any letter case (`ModTools.PreferredPak`).
- **The descriptor write is not gated.** `WriteModDescriptorJson` saves
  straight to its target, so it can create a file outside the Whiskerwood
  tree (`ModTools.DescriptorWriteIsUngated`). Inside `MovePakMod` the target
  is always inside the gated mod folder.
- **Packaging always targets Win64.** `RunPackagingForMod`'s platform mapping
  yields Win64 on every branch, in both copies. A user whose platform
  `ResolveUATPlatformName` reports as Linux is still packaged for Win64
  (`ModTools.PackagingIgnoresResolvedPlatform`).
- **The temp folder is `TempWorkshop`.** The code derives `AppData/TempWorkshop`.
  The library header's doc comment names the default `WorkshopTemp`.

### Behaviour the proofs make explicit

- **Log configs that share an id share one baseline.** The second config's
  file is compared with the line count of the first. Its "new" lines are
  counted from the first file's length (`LogWatcher.SharedIdShareBaseline`).
- **Pages that share a switcher index record the first page.** Showing the
  second page by id displays the right child, yet records the first page's id
  as active (`PageSwitcher.SharedIndexRecordsFirstPage`).
- **A failed move is not rolled back.** A descriptor write that fails after
  the pak copy leaves the mod moved (`ModTools.FailedDescriptorKeepsPak`,
  `GameModTools.FailedDescriptorKeepsPak`).

## Model

Source cells are paths from the repository root.

| member | source | states |
|---|---|---|
| ModSettings.ChunkIdOf | Plugins/WhiskerwoodModTools/Source/WhiskerwoodModTools/Private/PAL_WhiskerwoodModSettings.cpp:73-112 | result is -1 or positive; the override wins when it applies; a positive Rules.ChunkId beats legacy and asset manager; legacy only after both fail; the asset manager last; -1 exactly when no source holds a usable chunk |
| ModSettings.MigrateLegacy | Plugins/WhiskerwoodModTools/Source/WhiskerwoodModTools/Private/PAL_WhiskerwoodModSettings.cpp:39-42 | Rules.ChunkId takes the legacy value only when legacy > 0 and rules <= 0, otherwise nothing changes; afterwards a positive legacy value implies positive rules |
| ModSettings.MigrateIdempotent | Plugins/WhiskerwoodModTools/Source/WhiskerwoodModTools/Private/PAL_WhiskerwoodModSettings.cpp:39-42 | migrating twice equals migrating once |
| ModSettings.MigratePreservesChunkId | Plugins/WhiskerwoodModTools/Source/WhiskerwoodModTools/Private/PAL_WhiskerwoodModSettings.cpp:39-42 | migration never changes the chunk id GetChunkId returns |
| ModSettings.RulesAfterEdit | Plugins/WhiskerwoodModTools/Source/WhiskerwoodModTools/Private/PAL_WhiskerwoodModSettings.cpp:51-62 | an edit of LegacyChunkID to a positive value overwrites Rules.ChunkId, even a positive one; any other edit keeps it |
| ModSettings.LegacyEditTakesEffect | Plugins/WhiskerwoodModTools/Source/WhiskerwoodModTools/Private/PAL_WhiskerwoodModSettings.cpp:51-62 | after a positive legacy edit, without an override, GetChunkId returns the edited value |
| ModSettings.ModSettingsAsset.constructor | Plugins/WhiskerwoodModTools/Source/WhiskerwoodModTools/Private/PAL_WhiskerwoodModSettings.cpp:7-20 | a fresh asset cooks all, labels its directory, has ModDirName "NewMod" and the default chunk fields |
| ModSettings.ModSettingsAsset.PostLoad | Plugins/WhiskerwoodModTools/Source/WhiskerwoodModTools/Private/PAL_WhiskerwoodModSettings.cpp:32-44 | the chunk fields become MigrateLegacy of the old ones |
| ModSettings.ModSettingsAsset.PostEditChangeProperty | Plugins/WhiskerwoodModTools/Source/WhiskerwoodModTools/Private/PAL_WhiskerwoodModSettings.cpp:46-68 | only Rules.ChunkId changes, to RulesAfterEdit of the old fields |
| UserSettings.DefaultModsDirectory | Plugins/WhiskerwoodModTools/Source/WhiskerwoodModTools/Private/WhiskerwoodEditorUserSettings.cpp:27-33 | the default mods directory is GetWhiskerwoodModsDirectory (normalizing it again changes nothing) |
| UserSettings.WithDefaultsKeepsStored | Plugins/WhiskerwoodModTools/Source/WhiskerwoodModTools/Private/WhiskerwoodEditorUserSettings.cpp:21-79 | every non-empty stored field (a positive app id) survives construction unchanged |
| UserSettings.WithDefaultsDerivesEmpty | Plugins/WhiskerwoodModTools/Source/WhiskerwoodModTools/Private/WhiskerwoodEditorUserSettings.cpp:21-85 | each empty field gets its default: project dir, mods dir, AppData as parent of parent of mods, logs and temp under AppData, app id 2489330; pak dir is normalized only when non-empty; platform and app id always end up set |
| UserSettings.AppDataOfDefaultMods | Plugins/WhiskerwoodModTools/Source/WhiskerwoodModTools/Private/WhiskerwoodEditorUserSettings.cpp:38-44 | two levels above the default mods directory is the Whiskerwood folder |
| UserSettings.FirstRunLayout | Plugins/WhiskerwoodModTools/Source/WhiskerwoodModTools/Private/WhiskerwoodEditorUserSettings.cpp:27-60 | on first run mods = `<W>/Saved/mods`, AppData = `<W>`, logs = `<W>/Saved/Logs`, temp = `<W>/TempWorkshop` |
| UserSettings.RootLayoutNormalized | Plugins/WhiskerwoodModTools/Source/WhiskerwoodModTools/Private/WhiskerwoodEditorUserSettings.cpp:47-60 | the derived AppData, logs and temp directories are already in normalized form |
| UserSettings.EditorUserSettings.constructor | Plugins/WhiskerwoodModTools/Source/WhiskerwoodModTools/Private/WhiskerwoodEditorUserSettings.cpp:12-86 | the fields are the stored ones with defaults applied; nothing persisted yet |
| UserSettings.EditorUserSettings.SaveSettings | Plugins/WhiskerwoodModTools/Source/WhiskerwoodModTools/Private/WhiskerwoodEditorUserSettings.cpp:88-92 | fields unchanged; the persisted copy equals them |
| FileIO.SafeDestPath | Plugins/WhiskerwoodModTools/Source/WhiskerwoodModTools/Private/WhiskerwoodFileIOLibrary.cpp:15-41 | accepts iff the path contains "whiskerwood" in any case (a substring, not a prefix); the empty path is refused; the normalized path has '/' separators |
| FileIO.GetWhiskerwoodModsDirectory | Plugins/WhiskerwoodModTools/Source/WhiskerwoodModTools/Private/WhiskerwoodFileIOLibrary.cpp:53-69 | `<LOCALAPPDATA or Saved dir>/Whiskerwood/Saved/mods`, normalized; always passes the gate; its parent's parent is the Whiskerwood folder |
| FileIO.DeleteFileSpec | Plugins/WhiskerwoodModTools/Source/WhiskerwoodModTools/Private/WhiskerwoodFileIOLibrary.cpp:71-107 | succeeds iff gated, existing and deletable; failure changes nothing; success leaves exactly the other files, with their contents, and the same directories; only token paths change |
| FileIO.DeleteDirectorySpec | Plugins/WhiskerwoodModTools/Source/WhiskerwoodModTools/Private/WhiskerwoodFileIOLibrary.cpp:109-145 | succeeds iff gated, existing and deletable; success leaves exactly the files and directories outside it, with their contents, and removes the directory and everything under it; failure changes nothing |
| FileIO.EnsureDirectorySpec | Plugins/WhiskerwoodModTools/Source/WhiskerwoodModTools/Private/WhiskerwoodFileIOLibrary.cpp:147-183 | succeeds iff gated and existing or creatable; an existing directory is a no-op success; files never change |
| FileIO.EnsureParentSpec | Plugins/WhiskerwoodModTools/Source/WhiskerwoodModTools/Private/WhiskerwoodFileIOLibrary.cpp:222-233 | the destination's parent, when there is one, is ensured through the gate; files never change |
| FileIO.CopySpec | Plugins/WhiskerwoodModTools/Source/WhiskerwoodModTools/Private/WhiskerwoodFileIOLibrary.cpp:185-254 | succeeds iff the source is non-empty and exists, the destination is gated, overwrite allows it and its parent can be ensured; the copy carries the source's content and nothing else changes; with overwrite off and an existing destination nothing changes |
| FileIO.WriteSpec | Plugins/WhiskerwoodModTools/Source/WhiskerwoodModTools/Private/WhiskerwoodFileIOLibrary.cpp:256-309 | as CopySpec for a text destination: gated, overwrite respected, parent ensured, only the target changes |
| FileIO.RejectedPathChangesNothing | Plugins/WhiskerwoodModTools/Source/WhiskerwoodModTools/Private/WhiskerwoodFileIOLibrary.cpp:75-78 | a path the gate refuses makes delete, delete-directory, ensure, copy-to and write fail with no change |
| FileIO.CopyIgnoresSourceToken | Plugins/WhiskerwoodModTools/Source/WhiskerwoodModTools/Private/WhiskerwoodFileIOLibrary.cpp:190-212 | the copy verdict does not depend on which existing source is given: the source is never gated |
| FileIO.EnsureIdempotent | Plugins/WhiskerwoodModTools/Source/WhiskerwoodModTools/Private/WhiskerwoodFileIOLibrary.cpp:158-164 | ensuring a directory a second time changes nothing and answers the same |
| FileIO.WriteNeedsGatedParent | Plugins/WhiskerwoodModTools/Source/WhiskerwoodModTools/Private/WhiskerwoodFileIOLibrary.cpp:275-286 | a successful write's parent directory is absent or carries the token |
| FileIO.DeleteWhiskerwoodFile | Plugins/WhiskerwoodModTools/Source/WhiskerwoodModTools/Private/WhiskerwoodFileIOLibrary.cpp:71-107 | the filesystem and result are those of DeleteFileSpec |
| FileIO.DeleteWhiskerwoodDirectory | Plugins/WhiskerwoodModTools/Source/WhiskerwoodModTools/Private/WhiskerwoodFileIOLibrary.cpp:109-145 | the filesystem and result are those of DeleteDirectorySpec |
| FileIO.EnsureWhiskerwoodDirectory | Plugins/WhiskerwoodModTools/Source/WhiskerwoodModTools/Private/WhiskerwoodFileIOLibrary.cpp:147-183 | the filesystem and result are those of EnsureDirectorySpec |
| FileIO.CopyWhiskerwoodFile | Plugins/WhiskerwoodModTools/Source/WhiskerwoodModTools/Private/WhiskerwoodFileIOLibrary.cpp:185-254 | the filesystem and result are those of CopySpec |
| FileIO.WriteWhiskerwoodTextFile | Plugins/WhiskerwoodModTools/Source/WhiskerwoodModTools/Private/WhiskerwoodFileIOLibrary.cpp:256-309 | the filesystem and result are those of WriteSpec |
| GameFileIO.GameSafeDestPath | Source/Whiskerwood/WhiskerwoodFileIOLibrary.cpp:15-43 | testing the token before emptiness gives exactly the plugin gate's verdict |
| GameFileIO.DeleteWhiskerwoodFile | Source/Whiskerwood/WhiskerwoodFileIOLibrary.cpp:56-94 | behaves as the plugin's DeleteFileSpec |
| GameFileIO.DeleteWhiskerwoodDirectory | Source/Whiskerwood/WhiskerwoodFileIOLibrary.cpp:96-134 | behaves as the plugin's DeleteDirectorySpec |
| GameFileIO.EnsureWhiskerwoodDirectory | Source/Whiskerwood/WhiskerwoodFileIOLibrary.cpp:140-177 | behaves as the plugin's EnsureDirectorySpec |
| GameFileIO.CopyWhiskerwoodFile | Source/Whiskerwood/WhiskerwoodFileIOLibrary.cpp:183-261 | behaves as the plugin's CopySpec |
| GameFileIO.WriteWhiskerwoodTextFile | Source/Whiskerwood/WhiskerwoodFileIOLibrary.cpp:267-324 | behaves as the plugin's WriteSpec |
| ModTools.ResolveProjectDirectory | Plugins/WhiskerwoodModTools/Source/WhiskerwoodModTools/Private/WhiskerwoodModToolsLibrary.cpp:57-72 | the normalized setting when set, else the normalized project dir; always normalized |
| ModTools.ResolveModsDirectory | Plugins/WhiskerwoodModTools/Source/WhiskerwoodModTools/Private/WhiskerwoodModToolsLibrary.cpp:74-91 | the normalized setting, else GetWhiskerwoodModsDirectory, which passes the gate |
| ModTools.ResolveAppDataDirectory | Plugins/WhiskerwoodModTools/Source/WhiskerwoodModTools/Private/WhiskerwoodModToolsLibrary.cpp:94-116 | the setting, else parent of parent of the mods directory; with neither set, the Whiskerwood folder |
| ModTools.ResolveBaseLogsDirectory | Plugins/WhiskerwoodModTools/Source/WhiskerwoodModTools/Private/WhiskerwoodModToolsLibrary.cpp:119-137 | the setting, else `<AppData>/Saved/Logs` |
| ModTools.ResolveTempDeployDirectory | Plugins/WhiskerwoodModTools/Source/WhiskerwoodModTools/Private/WhiskerwoodModToolsLibrary.cpp:140-158 | the setting, else `<AppData>/TempWorkshop` |
| ModTools.DefaultLogsAndTempLayout | Plugins/WhiskerwoodModTools/Source/WhiskerwoodModTools/Private/WhiskerwoodModToolsLibrary.cpp:119-158 | with nothing set, logs = `<W>/Saved/Logs` and temp = `<W>/TempWorkshop` |
| ModTools.ResolvePakDirectory | Plugins/WhiskerwoodModTools/Source/WhiskerwoodModTools/Private/WhiskerwoodModToolsLibrary.cpp:161-197 | the override, else the directory of the first pak found under the project, else "" |
| ModTools.ConstructedDefaultsResolveAlike | Plugins/WhiskerwoodModTools/Source/WhiskerwoodModTools/Private/WhiskerwoodModToolsLibrary.cpp:74-158 | settings constructed with empty directories resolve to exactly what the resolvers' own fallbacks give |
| ModTools.ResolveUATPlatformName | Plugins/WhiskerwoodModTools/Source/WhiskerwoodModTools/Private/WhiskerwoodModToolsLibrary.cpp:200-230 | the result is Win64, Linux or Mac; Linux iff the lowered name lacks "win" and has "linux"; Mac likewise after both; the default name gives Win64 |
| ModTools.GetModDirectoryPath | Plugins/WhiskerwoodModTools/Source/WhiskerwoodModTools/Private/WhiskerwoodModToolsLibrary.cpp:326-351 | "" for a null asset |
| ModTools.ModDirectoryPathFacts | Plugins/WhiskerwoodModTools/Source/WhiskerwoodModTools/Private/WhiskerwoodModToolsLibrary.cpp:326-351 | the folder is normalized, gated whenever the mods directory is (always by default), and by default is `<mods>/<name>` |
| ModTools.PakAndDescriptorDiffer | Plugins/WhiskerwoodModTools/Source/WhiskerwoodModTools/Private/WhiskerwoodModToolsLibrary.cpp:556-577 | the pak target and the descriptor target of any two folders never share a filesystem key, so writing the descriptor cannot overwrite a pak |
| ModTools.HasSourcePak | Plugins/WhiskerwoodModTools/Source/WhiskerwoodModTools/Private/WhiskerwoodModToolsLibrary.cpp:712-756 | true iff asset, settings, a project directory and a positive chunk exist and the search finds a pak |
| ModTools.FirstContaining | Plugins/WhiskerwoodModTools/Source/WhiskerwoodModTools/Private/WhiskerwoodModToolsLibrary.cpp:512-521 | the index of the first candidate containing the hint, or the count when none does |
| ModTools.PreferredPak | Plugins/WhiskerwoodModTools/Source/WhiskerwoodModTools/Private/WhiskerwoodModToolsLibrary.cpp:509-522 | the result is a candidate; the first one naming the platform when some does, else FoundPaks[0]; an empty platform takes FoundPaks[0] |
| ModTools.ChooseSourcePak | Plugins/WhiskerwoodModTools/Source/WhiskerwoodModTools/Private/WhiskerwoodModToolsLibrary.cpp:509-522 | the loop with break picks PreferredPak |
| ModTools.Descriptor | Plugins/WhiskerwoodModTools/Source/WhiskerwoodModTools/Private/WhiskerwoodModToolsLibrary.cpp:370-399 | keys are the four text keys plus SteamAppID only for a positive app id and SteamWorkshopId only when non-empty; Name falls back to the asset name; optional keys never hold empty placeholders |
| ModTools.WriteDescriptorSpec | Plugins/WhiskerwoodModTools/Source/WhiskerwoodModTools/Private/WhiskerwoodModToolsLibrary.cpp:357-423 | succeeds iff an asset is given and the target is writable; saves the descriptor there and changes nothing else |
| ModTools.DescriptorWriteIsUngated | Plugins/WhiskerwoodModTools/Source/WhiskerwoodModTools/Private/WhiskerwoodModToolsLibrary.cpp:412-417 | a target without the token is still written: the gate is not consulted |
| ModTools.DescriptorRoundTrip | Plugins/WhiskerwoodModTools/Source/WhiskerwoodModTools/Private/WhiskerwoodModToolsLibrary.cpp:370-416 | reading the written file back yields the mod's fields, with each optional key present iff it has a value |
| ModTools.MovedLayout | Plugins/WhiskerwoodModTools/Source/WhiskerwoodModTools/Private/WhiskerwoodModToolsLibrary.cpp:758-784 | by default a mod is moved iff `<mods>/<name>/<name>.pak` exists |
| ModTools.CanDeployToWorkshop | Plugins/WhiskerwoodModTools/Source/WhiskerwoodModTools/Private/WhiskerwoodModToolsLibrary.cpp:787-803 | true iff the mod is moved and a positive Steam app id is set |
| ModTools.ConstructedSettingsCanDeploy | Plugins/WhiskerwoodModTools/Source/WhiskerwoodModTools/Private/WhiskerwoodModToolsLibrary.cpp:787-803 | with constructed settings the app id is always positive, so deployable iff moved |
| ModTools.MoveFilesSpec | Plugins/WhiskerwoodModTools/Source/WhiskerwoodModTools/Private/WhiskerwoodModToolsLibrary.cpp:537-589 | succeeds iff the folder is ensured, the pak copied and the descriptor target writable; a copied pak holds the source's content, even when the descriptor then fails; on success the descriptor sits beside it; only token paths change |
| ModTools.MovePakSpec | Plugins/WhiskerwoodModTools/Source/WhiskerwoodModTools/Private/WhiskerwoodModToolsLibrary.cpp:429-591 | no change unless a source pak is found; with one, succeeds iff it exists, the folder is ensured, the pak copied and the descriptor target writable, and the result is exactly the ensure-copy-write sequence; on success the mod is moved, its pak is the selected source's content and the descriptor is written; only token paths change |
| ModTools.FailedDescriptorKeepsPak | Plugins/WhiskerwoodModTools/Source/WhiskerwoodModTools/Private/WhiskerwoodModToolsLibrary.cpp:564-583 | a failing descriptor write after the copy leaves the mod moved |
| ModTools.MovePakMod | Plugins/WhiskerwoodModTools/Source/WhiskerwoodModTools/Private/WhiskerwoodModToolsLibrary.cpp:429-591 | the filesystem and result are those of MovePakSpec |
| ModTools.LocateSourcePak | Plugins/WhiskerwoodModTools/Source/WhiskerwoodModTools/Private/WhiskerwoodModToolsLibrary.cpp:429-522 | found iff HasSourcePak, and then the path is the preferred pak |
| ModTools.MoveFiles | Plugins/WhiskerwoodModTools/Source/WhiskerwoodModTools/Private/WhiskerwoodModToolsLibrary.cpp:537-589 | the filesystem and result are those of MoveFilesSpec |
| ModTools.WriteModDescriptorJson | Plugins/WhiskerwoodModTools/Source/WhiskerwoodModTools/Private/WhiskerwoodModToolsLibrary.cpp:357-423 | the filesystem and result are those of WriteDescriptorSpec |
| ModTools.RemoveMovedSpec | Plugins/WhiskerwoodModTools/Source/WhiskerwoodModTools/Private/WhiskerwoodModToolsLibrary.cpp:809-831 | a mod that is not moved is refused with no change; a moved mod's result is exactly the gated delete of its folder, and on success the folder is gone |
| ModTools.RemovedModIsNotMoved | Plugins/WhiskerwoodModTools/Source/WhiskerwoodModTools/Private/WhiskerwoodModToolsLibrary.cpp:809-831 | after a successful removal the mod is no longer moved |
| ModTools.DeletedFolderDropsPak | Plugins/WhiskerwoodModTools/Source/WhiskerwoodModTools/Private/WhiskerwoodModToolsLibrary.cpp:824-830 | deleting a mod folder removes the pak inside it |
| ModTools.RemoveMovedMod | Plugins/WhiskerwoodModTools/Source/WhiskerwoodModTools/Private/WhiskerwoodModToolsLibrary.cpp:809-831 | the filesystem and result are those of RemoveMovedSpec |
| ModTools.StagingDirectory | Plugins/WhiskerwoodModTools/Source/WhiskerwoodModTools/Private/WhiskerwoodModToolsLibrary.cpp:855-877 | `<W>/WorkshopStaging/<name>`, which always passes the gate |
| ModTools.StagingLayout | Plugins/WhiskerwoodModTools/Source/WhiskerwoodModTools/Private/WhiskerwoodModToolsLibrary.cpp:855-877 | for a single-segment name the staging folder is `<W>/WorkshopStaging/<name>` literally |
| ModTools.StageFilesSpec | Plugins/WhiskerwoodModTools/Source/WhiskerwoodModTools/Private/WhiskerwoodModToolsLibrary.cpp:879-925 | succeeds iff the pak copy succeeds and, when the mod folder has a descriptor, the descriptor copy succeeds too; the descriptor is staged even when the pak copy failed; on success the staged pak is the moved pak's content |
| ModTools.DeploySpec | Plugins/WhiskerwoodModTools/Source/WhiskerwoodModTools/Private/WhiskerwoodModToolsLibrary.cpp:833-935 | a mod that is not moved is refused with no change; a moved mod succeeds iff the staging folder is ensured and both copies succeed; OutStagingDir is non-empty iff staging succeeded, and then it is the staging folder holding the moved pak |
| ModTools.DeployModToWorkshopStaging | Plugins/WhiskerwoodModTools/Source/WhiskerwoodModTools/Private/WhiskerwoodModToolsLibrary.cpp:833-935 | the filesystem, result and OutStagingDir are those of DeploySpec |
| ModTools.StageFiles | Plugins/WhiskerwoodModTools/Source/WhiskerwoodModTools/Private/WhiskerwoodModToolsLibrary.cpp:879-925 | the filesystem and result are those of StageFilesSpec |
| ModTools.PackagingPlatformName | Plugins/WhiskerwoodModTools/Source/WhiskerwoodModTools/Private/WhiskerwoodModToolsLibrary.cpp:628-646 | every branch of the mapping yields Win64 |
| ModTools.RunPackagingForMod | Plugins/WhiskerwoodModTools/Source/WhiskerwoodModTools/Private/WhiskerwoodModToolsLibrary.cpp:597-706 | true iff RunUAT.bat exists, the project file is set and the tool exits 0 on the Win64 command line |
| ModTools.PackagingIgnoresResolvedPlatform | Plugins/WhiskerwoodModTools/Source/WhiskerwoodModTools/Private/WhiskerwoodModToolsLibrary.cpp:200-230 | a Linux user is told "Linux" by ResolveUATPlatformName yet is packaged for Win64 |
| ModToolsUI.RowStatusOf | Plugins/WhiskerwoodModTools/Source/WhiskerwoodModTools/Private/WhiskerwoodModToolsUILibrary.cpp:731-767 | Missing ChunkID iff chunk <= 0; when not moved, Ready to be Moved iff a source pak exists and No Pak Found otherwise; when moved, Ready for Deploy iff deployable; never No Mod and never Unknown State |
| ModToolsUI.RowViewOf | Plugins/WhiskerwoodModTools/Source/WhiskerwoodModTools/Private/WhiskerwoodModToolsUILibrary.cpp:652-786 | a null item or settings gives the empty No Mod row; otherwise the name is the item's ModName, else the asset's ModName, else the asset name; the status is RowStatusOf; Move iff source && !moved && chunk > 0; Remove iff moved; Deploy iff moved && deployable; the chunk shows the number or "-" |
| ModToolsUI.RowMatchesModTools | Plugins/WhiskerwoodModTools/Source/WhiskerwoodModTools/Private/WhiskerwoodModToolsUILibrary.cpp:724-786 | with the library's own queries, Move iff HasSourcePak && !IsModMoved, Remove iff IsModMoved, Deploy iff CanDeployToWorkshop; Move and Remove are never both enabled |
| ModToolsUI.RefreshModListRowUI | Plugins/WhiskerwoodModTools/Source/WhiskerwoodModTools/Private/WhiskerwoodModToolsUILibrary.cpp:634-787 | the row shows RowViewOf of the item with the library's queries |
| ModToolsUI.ShowRow | Plugins/WhiskerwoodModTools/Source/WhiskerwoodModTools/Private/WhiskerwoodModToolsUILibrary.cpp:652-786 | the widgets show RowViewOf of the given flags |
| ModToolsUI.StatusFromFlags | Plugins/WhiskerwoodModTools/Source/WhiskerwoodModTools/Private/WhiskerwoodModToolsUILibrary.cpp:731-767 | the if-chain computes RowStatusOf; its Unknown State branch is dead |
| ModToolsUI.FillIdempotent | Plugins/WhiskerwoodModTools/Source/WhiskerwoodModTools/Private/WhiskerwoodModToolsUILibrary.cpp:44-56 | filling a box twice equals filling it once |
| ModToolsUI.EnsureTextBoxValue | Plugins/WhiskerwoodModTools/Source/WhiskerwoodModTools/Private/WhiskerwoodModToolsUILibrary.cpp:44-56 | a non-null box gets the value only when empty |
| ModToolsUI.FormTouchesOnlyItsBoxes | Plugins/WhiskerwoodModTools/Source/WhiskerwoodModTools/Private/WhiskerwoodModToolsUILibrary.cpp:345-380 | a missing box leaves its field as it was, and fields with no box on the form never change |
| ModToolsUI.ApplyBasicFormIdempotent | Plugins/WhiskerwoodModTools/Source/WhiskerwoodModTools/Private/WhiskerwoodModToolsUILibrary.cpp:345-380 | saving the same form twice equals saving it once |
| ModToolsUI.ClearedSteamBlocksDeploy | Plugins/WhiskerwoodModTools/Source/WhiskerwoodModTools/Private/WhiskerwoodModToolsUILibrary.cpp:370-374 | an empty Steam box stores 0, after which no mod can be deployed |
| ModToolsUI.ClearedModsFallsBack | Plugins/WhiskerwoodModTools/Source/WhiskerwoodModTools/Private/WhiskerwoodModToolsUILibrary.cpp:358-361 | an empty mods box makes the mods directory resolve to the game's default |
| ModToolsUI.SaveSettingsFromBasicUI | Plugins/WhiskerwoodModTools/Source/WhiskerwoodModTools/Private/WhiskerwoodModToolsUILibrary.cpp:329-384 | the settings become the form applied to the old settings, then are persisted; null settings do nothing |
| LogWatcher.InitialStates | Plugins/WhiskerwoodModTools/Source/WhiskerwoodModTools/Private/WhiskerwoodLogWatcherSubsystem.cpp:60-78 | exactly one entry per non-None config id, each (0, false) |
| LogWatcher.ScanConfig | Plugins/WhiskerwoodModTools/Source/WhiskerwoodModTools/Private/WhiskerwoodLogWatcherSubsystem.cpp:122-203 | skipped configs keep state and emit nothing; only the config's own entry changes and it now exists; a missing file resets it silently; an unreadable file keeps it; a read sets (count, true); at most one broadcast, of exactly the lines after the old baseline, non-empty |
| LogWatcher.ScanTouchesOnlyActive | Plugins/WhiskerwoodModTools/Source/WhiskerwoodModTools/Private/WhiskerwoodLogWatcherSubsystem.cpp:112-204 | a scan never touches the entry of an id no active config names, and broadcasts at most once per config |
| LogWatcher.ScanEmitsAppendedLines | Plugins/WhiskerwoodModTools/Source/WhiskerwoodModTools/Private/WhiskerwoodLogWatcherSubsystem.cpp:175-202 | a file that grew from `lines` to `lines + more` broadcasts exactly `more` (nothing when empty) and moves the baseline to the new count |
| LogWatcher.FirstSightingIsSilent | Plugins/WhiskerwoodModTools/Source/WhiskerwoodModTools/Private/WhiskerwoodLogWatcherSubsystem.cpp:168-173 | the first read of a file sets its baseline and broadcasts nothing |
| LogWatcher.RescanIsSilent | Plugins/WhiskerwoodModTools/Source/WhiskerwoodModTools/Private/WhiskerwoodLogWatcherSubsystem.cpp:175-183 | scanning an unchanged file again broadcasts nothing |
| LogWatcher.ScanWithoutBaselinesIsSilent | Plugins/WhiskerwoodModTools/Source/WhiskerwoodModTools/Private/WhiskerwoodLogWatcherSubsystem.cpp:112-204 | with distinct ids and no file seen before, a whole scan broadcasts nothing |
| LogWatcher.FirstScanAfterRefreshIsSilent | Plugins/WhiskerwoodModTools/Source/WhiskerwoodModTools/Private/WhiskerwoodLogWatcherSubsystem.cpp:60-204 | the first scan after a refresh never broadcasts, whatever the files hold |
| LogWatcher.SharedIdShareBaseline | Plugins/WhiskerwoodModTools/Source/WhiskerwoodModTools/Private/WhiskerwoodLogWatcherSubsystem.cpp:135-202 | for any states, two active configs sharing an id share one baseline: after the scan the entry holds the second file's count, and the second broadcasts exactly its lines past the first file's length |
| LogWatcher.FirstWithId | Plugins/WhiskerwoodModTools/Source/WhiskerwoodModTools/Private/WhiskerwoodLogWatcherSubsystem.cpp:91-101 | the index of the first config with the id, or the count |
| LogWatcher.WithEnabled | Plugins/WhiskerwoodModTools/Source/WhiskerwoodModTools/Private/WhiskerwoodLogWatcherSubsystem.cpp:91-102 | only the first config with the id gets the new flag; every other config and every id is unchanged |
| LogWatcher.ToggleKeepsIds | Plugins/WhiskerwoodModTools/Source/WhiskerwoodModTools/Private/WhiskerwoodLogWatcherSubsystem.cpp:88-109 | the configs change iff the first match's flag differs; toggling never changes the id set |
| LogWatcher.LogWatcherSubsystem.constructor | Plugins/WhiskerwoodModTools/Source/WhiskerwoodModTools/Private/WhiskerwoodLogWatcherSubsystem.cpp:60-78 | starts with the refreshed states and nothing broadcast |
| LogWatcher.LogWatcherSubsystem.RefreshFromSettings | Plugins/WhiskerwoodModTools/Source/WhiskerwoodModTools/Private/WhiskerwoodLogWatcherSubsystem.cpp:60-78 | the states become InitialStates of the configs (empty for null settings) |
| LogWatcher.LogWatcherSubsystem.SetConfigEnabled | Plugins/WhiskerwoodModTools/Source/WhiskerwoodModTools/Private/WhiskerwoodLogWatcherSubsystem.cpp:80-110 | a None id or null settings does nothing; otherwise the configs become WithEnabled, and save and refresh happen iff something changed |
| LogWatcher.LogWatcherSubsystem.ScanOnce | Plugins/WhiskerwoodModTools/Source/WhiskerwoodModTools/Private/WhiskerwoodLogWatcherSubsystem.cpp:112-204 | the states and broadcasts are those of the config-by-config Scan |
| LogWatcher.LogWatcherSubsystem.ScanEntry | Plugins/WhiskerwoodModTools/Source/WhiskerwoodModTools/Private/WhiskerwoodLogWatcherSubsystem.cpp:122-203 | one loop iteration is ScanConfig |
| LogWatcher.CollectNewLines | Plugins/WhiskerwoodModTools/Source/WhiskerwoodModTools/Private/WhiskerwoodLogWatcherSubsystem.cpp:188-192 | the index loop collects exactly `lines[from..]` |
| LogWatcher.FindConfig | Plugins/WhiskerwoodModTools/Source/WhiskerwoodModTools/Private/WhiskerwoodLogWatcherSubsystem.cpp:91-101 | the search loop finds FirstWithId |
| PageSwitcher.BuiltPages | Plugins/WhiskerwoodModTools/Source/WhiskerwoodModTools/Private/WhiskerwoodPageSwitcherWidget.cpp:58-72 | each page names a non-null child at its own in-range index, with that child's name as display name; indices strictly increase |
| PageSwitcher.BuiltPagesComplete | Plugins/WhiskerwoodModTools/Source/WhiskerwoodModTools/Private/WhiskerwoodPageSwitcherWidget.cpp:58-72 | every non-null child gets a page |
| PageSwitcher.BuiltPageAtIndex | Plugins/WhiskerwoodModTools/Source/WhiskerwoodModTools/Private/WhiskerwoodPageSwitcherWidget.cpp:58-72 | in a built table, the page at a child's index is that child |
| PageSwitcher.BuiltPagesRoundTrip | Plugins/WhiskerwoodModTools/Source/WhiskerwoodModTools/Private/WhiskerwoodPageSwitcherWidget.cpp:86-138 | in a built table, showing a child by its id records that id |
| PageSwitcher.SharedIndexRecordsFirstPage | Plugins/WhiskerwoodModTools/Source/WhiskerwoodModTools/Private/WhiskerwoodPageSwitcherWidget.cpp:123-138 | in any table, when page j is the first on its child index and a later page k shares it, showing page k records page j's id |
| PageSwitcher.FirstWithIndex | Plugins/WhiskerwoodModTools/Source/WhiskerwoodModTools/Private/WhiskerwoodPageSwitcherWidget.cpp:125-133 | the first page with the index, or the count |
| PageSwitcher.FirstWithId | Plugins/WhiskerwoodModTools/Source/WhiskerwoodModTools/Private/WhiskerwoodPageSwitcherWidget.cpp:93-101 | the first page with the id, or the count |
| PageSwitcher.FirstNamed | Plugins/WhiskerwoodModTools/Source/WhiskerwoodModTools/Private/WhiskerwoodPageSwitcherWidget.cpp:35-42 | the first page whose id is not None, or the count |
| PageSwitcher.PageSwitcherWidget.BuildPagesFromSwitcherIfEmpty | Plugins/WhiskerwoodModTools/Source/WhiskerwoodModTools/Private/WhiskerwoodPageSwitcherWidget.cpp:45-84 | no change without a switcher or with pages already set; otherwise the pages become BuiltPages of the children |
| PageSwitcher.PageSwitcherWidget.ShowPageByIndex | Plugins/WhiskerwoodModTools/Source/WhiskerwoodModTools/Private/WhiskerwoodPageSwitcherWidget.cpp:107-141 | false with no change for an out-of-range index; otherwise the switcher shows it, the active id is the first page with that index (None when none) and the change is broadcast |
| PageSwitcher.PageSwitcherWidget.ShowPageById | Plugins/WhiskerwoodModTools/Source/WhiskerwoodModTools/Private/WhiskerwoodPageSwitcherWidget.cpp:86-105 | false with no change for a None id, no match or a bad index; otherwise shows the first match's index |
| PageSwitcher.PageSwitcherWidget.GetDisplayNameForPageId | Plugins/WhiskerwoodModTools/Source/WhiskerwoodModTools/Private/WhiskerwoodPageSwitcherWidget.cpp:143-154 | the first matching page's display name, or empty text |
| PageSwitcher.PageSwitcherWidget.NativeOnInitialized | Plugins/WhiskerwoodModTools/Source/WhiskerwoodModTools/Private/WhiskerwoodPageSwitcherWidget.cpp:12-43 | the pages are built if empty; when a page has a non-None id and its index is in range, the switcher shows that index, the active id is the first page on it and one change is broadcast; otherwise the active id, the broadcasts and the switcher are unchanged |
| PageSwitcher.FirstNamedIsFirstWithItsId | Plugins/WhiskerwoodModTools/Source/WhiskerwoodModTools/Private/WhiskerwoodPageSwitcherWidget.cpp:35-42 | showing the first named page by id finds that same page |
| PageSwitcher.FindFirstNamed | Plugins/WhiskerwoodModTools/Source/WhiskerwoodModTools/Private/WhiskerwoodPageSwitcherWidget.cpp:35-42 | the loop with break finds FirstNamed |
| PageSwitcher.FindPageWithIndex | Plugins/WhiskerwoodModTools/Source/WhiskerwoodModTools/Private/WhiskerwoodPageSwitcherWidget.cpp:125-133 | the loop with break finds FirstWithIndex |
| PageSwitcher.FindPageWithId | Plugins/WhiskerwoodModTools/Source/WhiskerwoodModTools/Private/WhiskerwoodPageSwitcherWidget.cpp:93-101 | the loop with return finds FirstWithId |
| GameModTools.ModSettingsOf | Source/Whiskerwood/Private/WhiskerwoodModToolsLibrary.cpp:43-53 | only loaded mod settings assets are kept, never more than the registry returned |
| GameModTools.ModSettingsOfComplete | Source/Whiskerwood/Private/WhiskerwoodModToolsLibrary.cpp:43-53 | every asset that loads as mod settings is kept |
| GameModTools.GetAllWhiskerwoodModSettings | Source/Whiskerwood/Private/WhiskerwoodModToolsLibrary.cpp:22-58 | the loaded mod settings in registry order; empty outside an editor build |
| GameModTools.GetAllModListItems | Source/Whiskerwood/Private/WhiskerwoodModToolsLibrary.cpp:64-112 | one item per loaded mod, in order, with its display name, chunk and mod folder; empty outside an editor build |
| GameModTools.EveryLoadedModIsListed | Source/Whiskerwood/Private/WhiskerwoodModToolsLibrary.cpp:83-108 | every asset that loads has its own item |
| GameModTools.GetModDirectoryPath | Source/Whiskerwood/Private/WhiskerwoodModToolsLibrary.cpp:118-143 | "" for a null asset and outside an editor build |
| GameModTools.ModDirectoryFacts | Source/Whiskerwood/Private/WhiskerwoodModToolsLibrary.cpp:127-139 | the folder is normalized, gated whenever the mods directory is, and under the game's mods directory is `<mods>/<name>` |
| GameModTools.ModDirectoryMatchesPlugin | Source/Whiskerwood/Private/WhiskerwoodModToolsLibrary.cpp:118-139 | with the plugin's mods setting empty, both copies pick the same folder |
| GameModTools.Descriptor | Source/Whiskerwood/Private/WhiskerwoodModToolsLibrary.cpp:161-170 | exactly Name, Description, Version and CreatedBy, Name falling back to the asset name |
| GameModTools.DescriptorIsPluginsCore | Source/Whiskerwood/Private/WhiskerwoodModToolsLibrary.cpp:161-170 | it agrees with the plugin's descriptor on the four keys, and equals it when the plugin has no Steam values |
| GameModTools.WriteDescriptorSpec | Source/Whiskerwood/Private/WhiskerwoodModToolsLibrary.cpp:149-198 | succeeds iff an editor build, an asset and a writable target; saves the descriptor ungated and changes nothing else |
| GameModTools.WriteModDescriptorJson | Source/Whiskerwood/Private/WhiskerwoodModToolsLibrary.cpp:149-198 | the filesystem and result are those of WriteDescriptorSpec |
| GameModTools.MoveFilesSpec | Source/Whiskerwood/Private/WhiskerwoodModToolsLibrary.cpp:314-358 | succeeds iff the folder is ensured, the pak copied and the descriptor target writable; a copied pak holds the source's content; on success the descriptor sits beside it; only token paths change |
| GameModTools.PakAndMoveSpec | Source/Whiskerwood/Private/WhiskerwoodModToolsLibrary.cpp:204-370 | no change outside an editor build or without a source pak; otherwise succeeds iff the source exists, the folder is ensured, the pak copied and the descriptor target writable, the result being exactly the ensure-copy-write sequence; on success the pak is the selected source's content and the descriptor is beside it; only token paths change |
| GameModTools.FailedCopySkipsDescriptor | Source/Whiskerwood/Private/WhiskerwoodModToolsLibrary.cpp:338-358 | a failed copy stops before the descriptor: no file is added or changed |
| GameModTools.FailedDescriptorKeepsPak | Source/Whiskerwood/Private/WhiskerwoodModToolsLibrary.cpp:338-358 | a failed descriptor write leaves the copied pak in place |
| GameModTools.WarnedSettingsDoNotBlock | Source/Whiskerwood/Private/WhiskerwoodModToolsLibrary.cpp:231-241 | the AppData setting never changes the outcome, and an empty platform takes the first pak |
| GameModTools.PakAndMoveMod | Source/Whiskerwood/Private/WhiskerwoodModToolsLibrary.cpp:204-370 | the filesystem and result are those of PakAndMoveSpec |
| GameModTools.LocateSourcePak | Source/Whiskerwood/Private/WhiskerwoodModToolsLibrary.cpp:207-300 | found iff an editor build and the checks pass and the search finds a pak; the path is the preferred pak |
| GameModTools.MoveFiles | Source/Whiskerwood/Private/WhiskerwoodModToolsLibrary.cpp:314-358 | the filesystem and result are those of MoveFilesSpec |
| GameModTools.PackagingPlatformName | Source/Whiskerwood/Private/WhiskerwoodModToolsLibrary.cpp:404-430 | every branch of the mapping yields Win64 |
| GameModTools.RunPackagingForMod | Source/Whiskerwood/Private/WhiskerwoodModToolsLibrary.cpp:376-495 | true iff an editor build, RunUAT.bat exists, the project file is set and the tool exits 0 on the Win64 command line |
| GameModTools.PackagingMatchesPlugin | Source/Whiskerwood/Private/WhiskerwoodModToolsLibrary.cpp:403-438 | in an editor build both copies answer alike, whatever either's settings |
| GameModTools.NonEditorBuildIsInert | Source/Whiskerwood/Private/WhiskerwoodModToolsLibrary.cpp:140-142 | outside an editor build the folder is "", and descriptor, move and packaging answer false with no change |

## Left out

- Both copies of `RunPackagingForMod` launch the packaging tool, poll it and sleep. That process is not modelled. Whether RunUAT.bat exists, the project file path and the tool's exit code are parameters.
- The plugin's `GetAllWhiskerwoodModSettings` and `GetAllModListItems` are not modelled. They are asset-registry queries. The game module's copies are modelled, with the registry's answer as a parameter.
- `UAssetManager::GetPrimaryAssetRules` is not modelled. Its effective chunk rule is the `Option<int>` parameter.
- `FindFilesRecursive` and its wildcard matching are not modelled. The search result is the `Finder` parameter.
- `FCString::Atoi` is the `atoi` parameter.
- Environment variables are not read. `LOCALAPPDATA` and the project directories are fields of `HostEnv`.
- `ConvertRelativePathToFull` is not modelled. Paths are taken as already absolute.
- Windows does not distinguish letter case in paths. The model does not capture this: filesystem keys distinguish case and only separators are unified.
- JSON text serialization and file encodings are not modelled. A descriptor is a key-to-value map, and the serializer is assumed never to fail.
- `ParseIntoArrayLines` is not modelled. A log file is given as its sequence of lines, or as missing or unreadable.
- Label colours, logging, menu and style registration, delegate wiring, folder dialogs, the log watcher's ticker, and the warning loop in `NativeOnInitialized` are left out. None of them changes modelled state.
- ModToolsUI.RefreshModListRowUI: the source tests each widget for null before writing it. The model's row always has all its widgets.
- LogWatcher.ScanConfig: `LastLineCount` is an `int32` in the source. The model counts lines with an unbounded `nat`.
- GameModTools.GetModDirectoryPath: the game module's `GetWhiskerwoodModsDirectory` is not part of this model. Its answer is the `modsDir` parameter.
- The game module's `UPDA_WhiskerwoodModSettings` and its user settings are only read by the library, so they are modelled as values. The game settings constructor is not part of the modelled core.
