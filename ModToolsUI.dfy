/**
 * The editor UI helpers (UWhiskerwoodModToolsUILibrary): the status text
 * and button gating of one row of the mod list, filling a text box only
 * when it is empty, and copying the basic settings form back into the
 * settings object.
 *
 * Widgets are small objects whose fields the helpers assign; the colours
 * the helpers also set are not modelled.
 */
module ModToolsUI {
  import opened Common
  import opened Platform
  import opened ModSettings
  import opened UserSettings
  import opened ModTools

  // ---------------------------------------------------------------------
  // Mod list row
  // ---------------------------------------------------------------------

  /** The status line of a row; StatusText gives the text shown. */
  datatype RowStatus =
    | NoMod
    | MissingChunkId
    | NoPakFound
    | ReadyToBeMoved
    | MovedReadyForDeploy
    | MovedSteamNotConfigured
    | UnknownState

  function StatusText(status: RowStatus): string {
    match status
    case NoMod => "No Mod"
    case MissingChunkId => "Missing ChunkID"
    case NoPakFound => "No Pak Found"
    case ReadyToBeMoved => "Ready to be Moved"
    case MovedReadyForDeploy => "Moved | Ready for Deploy"
    case MovedSteamNotConfigured => "Moved | Steam Not Configured"
    case UnknownState => "Unknown State"
  }

  /** The chunk column: empty, the chunk number, or a dash. */
  datatype ChunkLabel = Blank | Number(chunkId: int) | Dash

  /** Everything one refresh writes into a row's widgets. */
  datatype RowView = RowView(
    name: string,
    chunk: ChunkLabel,
    status: RowStatus,
    moveEnabled: bool,
    removeEnabled: bool,
    deployEnabled: bool
  )

  /** The row shown when there is no mod to describe. */
  const EmptyRow: RowView := RowView("", Blank, NoMod, false, false, false)

  /** A list item (UWhiskerwoodModListItem): its copied name and its asset. */
  datatype ModListItem = ModListItem(modName: string, settings: Option<ModInfo>)

  /** The item refers to a settings asset. */
  predicate Describable(item: Option<ModListItem>) {
    item.Some? && item.value.settings.Some?
  }

  /** The row's name: the item's name, else the asset's ModName, else the asset name. */
  function RowName(item: ModListItem, info: ModInfo): string {
    if item.modName != "" then item.modName else info.DisplayName()
  }

  /**
   * The status for a described mod, given its chunk id and the three
   * answers of the mod tools: has a source pak, is moved, can be deployed.
   */
  function RowStatusOf(chunkId: int, hasSource: bool, moved: bool, canDeploy: bool): (status: RowStatus)
    // a missing chunk wins over the other answers
    ensures status == MissingChunkId <==> chunkId <= 0
    ensures chunkId > 0 && !moved ==>
      (status == ReadyToBeMoved <==> hasSource) && (status == NoPakFound <==> !hasSource)
    ensures chunkId > 0 && moved ==>
      (status == MovedReadyForDeploy <==> canDeploy) && (status == MovedSteamNotConfigured <==> !canDeploy)
    // neither the no-mod text nor the fallback is ever shown for a mod
    ensures status != NoMod && status != UnknownState
  {
    if chunkId <= 0 then MissingChunkId
    else if !moved then (if hasSource then ReadyToBeMoved else NoPakFound)
    else if canDeploy then MovedReadyForDeploy
    else MovedSteamNotConfigured
  }

  /** The row for an item, given its chunk id and the mod tools' three answers. */
  function RowViewOf(item: Option<ModListItem>, chunkId: int, hasSource: bool, moved: bool, canDeploy: bool): (v: RowView)
    // no asset: the safe defaults, every button disabled
    ensures !Describable(item) ==> v == EmptyRow
    ensures Describable(item) ==> v.status == RowStatusOf(chunkId, hasSource, moved, canDeploy)
    ensures v.status != UnknownState
    // the button gating
    ensures v.moveEnabled <==> Describable(item) && hasSource && !moved && chunkId > 0
    ensures v.removeEnabled <==> Describable(item) && moved
    ensures v.deployEnabled <==> Describable(item) && moved && canDeploy
    ensures Describable(item) ==> v.chunk == (if chunkId > 0 then Number(chunkId) else Dash)
    // the name: the item's copy, else the asset's ModName, else the asset's own name
    ensures Describable(item) ==>
      var info := item.value.settings.value;
      v.name == (if item.value.modName != "" then item.value.modName
                 else if info.modName != "" then info.modName
                 else info.assetName)
  {
    if !Describable(item) then EmptyRow
    else
      RowView(RowName(item.value, item.value.settings.value),
              if chunkId > 0 then Number(chunkId) else Dash,
              RowStatusOf(chunkId, hasSource, moved, canDeploy),
              hasSource && !moved && chunkId > 0,
              moved,
              moved && canDeploy)
  }

  /** The row RefreshModListRowUI shows, with the mod tools' own answers. */
  function RowFor(item: Option<ModListItem>, st: FsState, s: Option<SettingsFields>, host: HostEnv,
                  find: Finder, effectiveRule: Option<int>): RowView
  {
    if !Describable(item) then EmptyRow
    else
      var info := item.value.settings;
      RowViewOf(item, ChunkIdOf(info.value.chunk, effectiveRule),
                HasSourcePak(info, s, find, effectiveRule),
                IsModMoved(st, info, s, host),
                CanDeployToWorkshop(st, info, s, host))
  }

  /**
   * With the mod tools' answers, Move is offered exactly for a found pak
   * not yet moved (a found pak implies a usable chunk), Remove and Move are
   * exclusive, and "Ready for Deploy" is shown exactly when the mod tools
   * would deploy the mod.
   */
  lemma {:induction false} RowMatchesModTools(item: Option<ModListItem>, st: FsState, s: Option<SettingsFields>, host: HostEnv,
                                              find: Finder, effectiveRule: Option<int>)
    requires Describable(item)
    ensures var v := RowFor(item, st, s, host, find, effectiveRule);
      var info := item.value.settings;
      && (v.moveEnabled <==> HasSourcePak(info, s, find, effectiveRule) && !IsModMoved(st, info, s, host))
      && (v.removeEnabled <==> IsModMoved(st, info, s, host))
      && (v.deployEnabled <==> CanDeployToWorkshop(st, info, s, host))
      && !(v.moveEnabled && v.removeEnabled)
      && (v.status == MovedReadyForDeploy <==>
            ChunkIdOf(info.value.chunk, effectiveRule) > 0 && CanDeployToWorkshop(st, info, s, host))
  {
    var info := item.value.settings;
    var chunkId := ChunkIdOf(info.value.chunk, effectiveRule);
    var hasSource := HasSourcePak(info, s, find, effectiveRule);
    var moved := IsModMoved(st, info, s, host);
    var canDeploy := CanDeployToWorkshop(st, info, s, host);
    var v := RowViewOf(item, chunkId, hasSource, moved, canDeploy);
    assert v == RowFor(item, st, s, host, find, effectiveRule);
    assert hasSource ==> chunkId > 0;
    assert canDeploy ==> moved;
  }

  /** The widgets of one row: three labels and three buttons. */
  class ModListRow {
    var nameText: string
    var chunkText: ChunkLabel
    var status: RowStatus
    var moveEnabled: bool
    var removeEnabled: bool
    var deployEnabled: bool

    function View(): RowView
      reads this
    {
      RowView(nameText, chunkText, status, moveEnabled, removeEnabled, deployEnabled)
    }

    constructor ()
      ensures View() == EmptyRow
    {
      nameText, chunkText, status := "", Blank, NoMod;
      moveEnabled, removeEnabled, deployEnabled := false, false, false;
    }
  }

  /**
   * RefreshModListRowUI: reset the row to its safe defaults, then, for an
   * item with an asset, show its name, chunk and status and enable the
   * buttons its state allows.
   */
  method RefreshModListRowUI(row: ModListRow, item: Option<ModListItem>, fs: FileSystem, settings: EditorUserSettings?,
                             host: HostEnv, find: Finder, effectiveRule: Option<int>)
    modifies row
    ensures row.View() == RowFor(item, fs.State(), FieldsOf(settings), host, find, effectiveRule)
  {
    if !Describable(item) {
      ShowRow(row, item, 0, false, false, false);
      return;
    }
    var asset := item.value.settings;
    var s := FieldsOf(settings);
    var chunkId := ChunkIdOf(asset.value.chunk, effectiveRule);
    var hasSource := HasSourcePak(asset, s, find, effectiveRule);
    var moved := IsModMoved(fs.State(), asset, s, host);
    var canDeploy := CanDeployToWorkshop(fs.State(), asset, s, host);
    ShowRow(row, item, chunkId, hasSource, moved, canDeploy);
  }

  /**
   * The widget updates of RefreshModListRowUI once the mod tools have
   * answered: the safe defaults first, then, for an item with an asset,
   * its name, chunk, status and buttons.
   */
  method ShowRow(row: ModListRow, item: Option<ModListItem>, chunkId: int, hasSource: bool, moved: bool, canDeploy: bool)
    modifies row
    ensures row.View() == RowViewOf(item, chunkId, hasSource, moved, canDeploy)
  {
    row.moveEnabled, row.removeEnabled, row.deployEnabled := false, false, false;
    row.nameText, row.chunkText, row.status := "", Blank, NoMod;
    if item.None? || item.value.settings.None? {
      return;
    }
    var info := item.value.settings.value;
    var displayName := item.value.modName;
    if displayName == "" {
      if info.modName != "" {
        displayName := info.modName;
      } else {
        displayName := info.assetName;
      }
    }
    row.nameText := displayName;
    if chunkId > 0 {
      row.chunkText := Number(chunkId);
    } else {
      row.chunkText := Dash;
    }
    var status := StatusFromFlags(chunkId, hasSource, moved, canDeploy);
    row.status := status;
    row.moveEnabled := hasSource && !moved && chunkId > 0;
    row.removeEnabled := moved;
    row.deployEnabled := moved && canDeploy;
  }

  /**
   * The status chain of RefreshModListRowUI. Its last branch, the
   * "Unknown State" fallback, is proved unreachable.
   */
  method StatusFromFlags(chunkId: int, hasSource: bool, moved: bool, canDeploy: bool) returns (status: RowStatus)
    ensures status == RowStatusOf(chunkId, hasSource, moved, canDeploy)
  {
    status := UnknownState;
    if chunkId <= 0 {
      status := MissingChunkId;
    } else if !moved && !hasSource {
      status := NoPakFound;
    } else if !moved && hasSource {
      status := ReadyToBeMoved;
    } else if moved {
      if canDeploy {
        status := MovedReadyForDeploy;
      } else {
        status := MovedSteamNotConfigured;
      }
    } else {
      assert false;
    }
  }

  // ---------------------------------------------------------------------
  // Text boxes and the basic settings form
  // ---------------------------------------------------------------------

  /** An editable text box. */
  class TextBox {
    var text: string

    constructor (initial: string)
      ensures text == initial
    {
      text := initial;
    }
  }

  /** The text a box holds after EnsureTextBoxValue(value). */
  function FilledText(current: string, value: string): string {
    if current == "" then value else current
  }

  /** Filling a box twice with the same value leaves what filling it once did. */
  lemma FillIdempotent(current: string, value: string)
    ensures FilledText(FilledText(current, value), value) == FilledText(current, value)
    ensures current != "" ==> FilledText(current, value) == current
  {
  }

  /** EnsureTextBoxValue: write `value` only into an empty box; a null box is ignored. */
  method EnsureTextBoxValue(box: TextBox?, value: string)
    modifies box
    ensures box != null ==> box.text == FilledText(old(box.text), value)
  {
    if box == null {
      return;
    }
    if box.text == "" {
      box.text := value;
    }
  }

  /** A box's text, or None for a null box. */
  function TextOf(box: TextBox?): Option<string>
    reads box
  {
    if box == null then None else Some(box.text)
  }

  /** The texts of the six boxes of the basic settings form. */
  datatype BasicForm = BasicForm(
    project: Option<string>,
    appData: Option<string>,
    mods: Option<string>,
    platform: Option<string>,
    steamAppId: Option<string>,
    tempDeploy: Option<string>
  )

  /** The form with every box missing. */
  const NoBoxes: BasicForm := BasicForm(None, None, None, None, None, None)

  /** A box's text, or the field's current value when the box is missing. */
  function OrKeep(text: Option<string>, current: string): string {
    if text.Some? then text.value else current
  }

  /**
   * The Steam app id after the Steam box is copied: the current id without
   * a box, 0 for an empty box, else the box's text as `atoi` parses it.
   */
  function StoredSteamAppId(text: Option<string>, current: int, atoi: string -> int): int {
    if text.None? then current
    else if text.value == "" then 0
    else atoi(text.value)
  }

  /**
   * The settings after the form is copied into them. `atoi` stands for
   * FCString::Atoi; an empty Steam box stores 0 without consulting it.
   */
  function ApplyBasicForm(f: SettingsFields, form: BasicForm, atoi: string -> int): SettingsFields {
    f.(projectDirectory := OrKeep(form.project, f.projectDirectory),
       appDataDirectory := OrKeep(form.appData, f.appDataDirectory),
       modsDirectory := OrKeep(form.mods, f.modsDirectory),
       platformName := OrKeep(form.platform, f.platformName),
       steamAppId := StoredSteamAppId(form.steamAppId, f.steamAppId, atoi),
       tempDeployDirectory := OrKeep(form.tempDeploy, f.tempDeployDirectory))
  }

  /**
   * Only the fields of present boxes change: a missing box keeps its field,
   * and the fields the form does not show are never touched.
   */
  lemma {:induction false} FormTouchesOnlyItsBoxes(f: SettingsFields, form: BasicForm, atoi: string -> int)
    ensures var r := ApplyBasicForm(f, form, atoi);
      && r.pakDirectory == f.pakDirectory && r.baseLogsDirectory == f.baseLogsDirectory
      && r.logWatchConfigs == f.logWatchConfigs && r.lastCopiedPakPath == f.lastCopiedPakPath
      && (form.project.None? ==> r.projectDirectory == f.projectDirectory)
      && (form.appData.None? ==> r.appDataDirectory == f.appDataDirectory)
      && (form.mods.None? ==> r.modsDirectory == f.modsDirectory)
      && (form.platform.None? ==> r.platformName == f.platformName)
      && (form.steamAppId.None? ==> r.steamAppId == f.steamAppId)
      && (form.tempDeploy.None? ==> r.tempDeployDirectory == f.tempDeployDirectory)
      && (form == NoBoxes ==> r == f)
  {
  }

  /** Saving the same form twice stores what saving it once did. */
  lemma {:induction false} ApplyBasicFormIdempotent(f: SettingsFields, form: BasicForm, atoi: string -> int)
    ensures ApplyBasicForm(ApplyBasicForm(f, form, atoi), form, atoi) == ApplyBasicForm(f, form, atoi)
  {
  }

  /**
   * Saving an emptied Steam box stores 0, so afterwards no mod can be
   * deployed, whatever the filesystem holds.
   */
  lemma {:induction false} ClearedSteamBlocksDeploy(f: SettingsFields, form: BasicForm, atoi: string -> int,
                                                    st: FsState, mod: Option<ModInfo>, host: HostEnv)
    requires form.steamAppId == Some("")
    ensures ApplyBasicForm(f, form, atoi).steamAppId == 0
    ensures !CanDeployToWorkshop(st, mod, Some(ApplyBasicForm(f, form, atoi)), host)
  {
    var r := ApplyBasicForm(f, form, atoi);
    assert r.steamAppId == 0;
    assert !AppIdPublished(Some(r));
  }

  /**
   * Saving an emptied mods box makes the tools fall back to the game's mods
   * folder.
   */
  lemma {:induction false} ClearedModsFallsBack(f: SettingsFields, form: BasicForm, atoi: string -> int, host: HostEnv)
    requires form.mods == Some("")
    ensures ResolveModsDirectory(Some(ApplyBasicForm(f, form, atoi)), host) == ResolveModsDirectory(None, host)
  {
    var r := ApplyBasicForm(f, form, atoi);
    assert r.modsDirectory == "";
    assert !ModsSet(Some(r));
  }

  /** The form as the six (possibly null) boxes hold it. */
  function FormOf(projectBox: TextBox?, appDataBox: TextBox?, modsBox: TextBox?,
                  platformBox: TextBox?, steamBox: TextBox?, tempBox: TextBox?): BasicForm
    reads projectBox, appDataBox, modsBox, platformBox, steamBox, tempBox
  {
    BasicForm(TextOf(projectBox), TextOf(appDataBox), TextOf(modsBox),
              TextOf(platformBox), TextOf(steamBox), TextOf(tempBox))
  }

  /**
   * SaveSettingsFromBasicUI: copy the present boxes into the settings, then
   * persist them. Without a settings object nothing happens; a field whose
   * box is missing is written back unchanged.
   */
  method SaveSettingsFromBasicUI(settings: EditorUserSettings?,
                                 projectBox: TextBox?, appDataBox: TextBox?, modsBox: TextBox?,
                                 platformBox: TextBox?, steamBox: TextBox?, tempBox: TextBox?,
                                 atoi: string -> int)
    modifies settings
    ensures settings != null ==>
      && settings.Fields() == ApplyBasicForm(old(settings.Fields()),
                                             FormOf(projectBox, appDataBox, modsBox, platformBox, steamBox, tempBox), atoi)
      && settings.persisted == Some(settings.Fields())
  {
    if settings == null {
      return;
    }
    // the boxes are read, never written, so their texts can be taken first
    settings.projectDirectory := OrKeep(TextOf(projectBox), settings.projectDirectory);
    settings.appDataDirectory := OrKeep(TextOf(appDataBox), settings.appDataDirectory);
    settings.modsDirectory := OrKeep(TextOf(modsBox), settings.modsDirectory);
    settings.platformName := OrKeep(TextOf(platformBox), settings.platformName);
    settings.steamAppId := StoredSteamAppId(TextOf(steamBox), settings.steamAppId, atoi);
    settings.tempDeployDirectory := OrKeep(TextOf(tempBox), settings.tempDeployDirectory);
    settings.SaveSettings();
  }
}
