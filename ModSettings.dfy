/**
 * The per-mod settings asset (UPAL_WhiskerwoodModSettings): mod metadata,
 * the chunk-id priority chain that decides which pakchunk holds the mod,
 * and the migration of the deprecated LegacyChunkID into Rules.ChunkId.
 */
module ModSettings {
  import opened Common

  /** The engine's default Rules.ChunkId of a primary asset label. */
  const DefaultRulesChunkId: int := -1

  /** Everything GetChunkId reads from the asset. */
  datatype ChunkFields = ChunkFields(
    useModFolderNameForChunk: bool,
    overrideChunkId: int,
    rulesChunkId: int,
    legacyChunkId: int
  )

  /** The explicit override applies. */
  predicate OverrideApplies(c: ChunkFields) {
    !c.useModFolderNameForChunk && c.overrideChunkId > 0
  }

  /** The asset manager's effective rule holds a usable chunk. */
  predicate EffectiveApplies(effectiveRule: Option<int>) {
    effectiveRule.Some? && effectiveRule.value > 0
  }

  /**
   * GetChunkId. `effectiveRule` is the asset manager's effective
   * Rules.ChunkId for this asset, or None when the manager is not
   * initialized or the asset id is not valid.
   */
  function ChunkIdOf(c: ChunkFields, effectiveRule: Option<int>): (r: int)
    // the result is either "none" or a usable chunk
    ensures r == -1 || r > 0
    // 1) the override wins whatever the other sources hold
    ensures OverrideApplies(c) ==> r == c.overrideChunkId
    // 2) Rules.ChunkId beats the legacy field and the asset manager
    ensures !OverrideApplies(c) && c.rulesChunkId > 0 ==> r == c.rulesChunkId
    // 3) the legacy field is used only once 1) and 2) fail
    ensures r == c.legacyChunkId && r != c.rulesChunkId && r != c.overrideChunkId ==>
      !OverrideApplies(c) && c.rulesChunkId <= 0
    ensures !OverrideApplies(c) && c.rulesChunkId <= 0 && c.legacyChunkId > 0 ==> r == c.legacyChunkId
    // 4) the asset manager is consulted last
    ensures !OverrideApplies(c) && c.rulesChunkId <= 0 && c.legacyChunkId <= 0 ==>
      r == (if EffectiveApplies(effectiveRule) then effectiveRule.value else -1)
    // 5) -1 exactly when no source holds a usable chunk
    ensures r == -1 <==>
      !OverrideApplies(c) && c.rulesChunkId <= 0 && c.legacyChunkId <= 0 && !EffectiveApplies(effectiveRule)
  {
    if !c.useModFolderNameForChunk && c.overrideChunkId > 0 then c.overrideChunkId
    else if c.rulesChunkId > 0 then c.rulesChunkId
    else if c.legacyChunkId > 0 then c.legacyChunkId
    else if effectiveRule.Some? && effectiveRule.value > 0 then effectiveRule.value
    else -1
  }

  /** The migration PostLoad performs on the chunk fields. */
  function MigrateLegacy(c: ChunkFields): (m: ChunkFields)
    ensures m.useModFolderNameForChunk == c.useModFolderNameForChunk
    ensures m.overrideChunkId == c.overrideChunkId && m.legacyChunkId == c.legacyChunkId
    ensures c.legacyChunkId > 0 && c.rulesChunkId <= 0 ==> m.rulesChunkId == c.legacyChunkId
    ensures !(c.legacyChunkId > 0 && c.rulesChunkId <= 0) ==> m == c
    ensures m.legacyChunkId > 0 ==> m.rulesChunkId > 0
  {
    if c.legacyChunkId > 0 && c.rulesChunkId <= 0 then c.(rulesChunkId := c.legacyChunkId) else c
  }

  /** Loading an asset twice migrates it no further than loading it once. */
  lemma MigrateIdempotent(c: ChunkFields)
    ensures MigrateLegacy(MigrateLegacy(c)) == MigrateLegacy(c)
  {
  }

  /** The migration never changes the chunk the asset resolves to. */
  lemma MigratePreservesChunkId(c: ChunkFields, effectiveRule: Option<int>)
    ensures ChunkIdOf(MigrateLegacy(c), effectiveRule) == ChunkIdOf(c, effectiveRule)
  {
  }

  /** The Rules.ChunkId an edit of property `changed` leaves behind. */
  function RulesAfterEdit(c: ChunkFields, changed: Option<string>): (rules: int)
    ensures changed == Some("LegacyChunkID") && c.legacyChunkId > 0 ==> rules == c.legacyChunkId
    ensures changed != Some("LegacyChunkID") || c.legacyChunkId <= 0 ==> rules == c.rulesChunkId
  {
    if changed.Some? && changed.value == "LegacyChunkID" && c.legacyChunkId > 0 then c.legacyChunkId
    else c.rulesChunkId
  }

  /**
   * After a positive legacy edit, the asset resolves to the legacy value
   * unless the override applies, even if Rules.ChunkId was already set.
   */
  lemma LegacyEditTakesEffect(c: ChunkFields, effectiveRule: Option<int>)
    requires c.legacyChunkId > 0 && !OverrideApplies(c)
    ensures ChunkIdOf(c.(rulesChunkId := RulesAfterEdit(c, Some("LegacyChunkID"))), effectiveRule) == c.legacyChunkId
  {
  }

  /** What the mod tools read from a settings asset. */
  datatype ModInfo = ModInfo(
    assetName: string,   // GetName()
    modName: string,
    description: string,
    modDirName: string,
    version: string,
    createdBy: string,
    steamWorkshopId: string,
    chunk: ChunkFields
  ) {
    /** The mod's folder name: ModDirName, or the asset name when empty. */
    function DirName(): string {
      if modDirName == "" then assetName else modDirName
    }

    /** The mod's display name: ModName, or the asset name when empty. */
    function DisplayName(): string {
      if modName == "" then assetName else modName
    }
  }

  /** The settings asset of one mod. */
  class ModSettingsAsset {
    const assetName: string   // GetName()
    var modName: string
    var description: string
    var modDirName: string
    var version: string
    var createdBy: string
    var steamWorkshopId: string
    var cookAll: bool
    var labelAssetsInMyDirectory: bool
    var legacyChunkId: int
    var useModFolderNameForChunk: bool
    var overrideChunkId: int
    var rulesChunkId: int

    function Chunk(): ChunkFields
      reads this
    {
      ChunkFields(useModFolderNameForChunk, overrideChunkId, rulesChunkId, legacyChunkId)
    }

    /** The values the mod tools read from the asset. */
    function Info(): ModInfo
      reads this
    {
      ModInfo(assetName, modName, description, modDirName, version, createdBy, steamWorkshopId, Chunk())
    }

    /** A fresh asset: cooks everything and lives in folder "NewMod". */
    constructor (name: string)
      ensures assetName == name
      ensures cookAll && labelAssetsInMyDirectory
      ensures modDirName == "NewMod" && Info().DirName() == "NewMod"
      ensures modName == "" && description == "" && version == "" && createdBy == "" && steamWorkshopId == ""
      ensures Chunk() == ChunkFields(true, -1, DefaultRulesChunkId, -1)
    {
      assetName := name;
      modName, description, version, createdBy, steamWorkshopId := "", "", "", "", "";
      legacyChunkId := -1;
      useModFolderNameForChunk := true;
      overrideChunkId := -1;
      rulesChunkId := DefaultRulesChunkId;
      modDirName := "";
      cookAll := true;                    // the header's initializer
      labelAssetsInMyDirectory := false;  // the engine's default
      new;
      cookAll := true;
      if modDirName == "" {
        modDirName := "NewMod";
      }
      labelAssetsInMyDirectory := true;
    }

    /** PostLoad: migrate a positive legacy chunk into an unset Rules.ChunkId. */
    method PostLoad()
      modifies this`rulesChunkId
      ensures Chunk() == MigrateLegacy(old(Chunk()))
    {
      if legacyChunkId > 0 && rulesChunkId <= 0 {
        rulesChunkId := legacyChunkId;
      }
    }

    /** PostEditChangeProperty: a positive legacy edit overwrites Rules.ChunkId. */
    method PostEditChangeProperty(changed: Option<string>)
      modifies this`rulesChunkId
      ensures Chunk() == old(Chunk()).(rulesChunkId := RulesAfterEdit(old(Chunk()), changed))
    {
      if changed.Some? {
        var propName := changed.value;
        if propName == "LegacyChunkID" {
          if legacyChunkId > 0 {
            rulesChunkId := legacyChunkId;
          }
        }
      }
    }
  }

  /** The asset a nullable pointer refers to, as values. */
  function InfoOf(mod: ModSettingsAsset?): Option<ModInfo>
    reads mod
  {
    if mod == null then None else Some(mod.Info())
  }
}
