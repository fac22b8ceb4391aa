/**
 * The log watcher (UWhiskerwoodLogWatcherSubsystem): for every enabled
 * watch entry of the user settings it remembers how many lines the file
 * had at the last scan, and each scan broadcasts only the lines appended
 * since then.
 *
 * The files are a parameter `files`: for a path, whether the file is
 * missing, exists but cannot be loaded, or loads and splits into lines.
 * Broadcasts are appended to the subsystem's `emitted` log in the order
 * the scan fires them.
 */
module LogWatcher {
  import opened Common
  import opened UserSettings

  /** FWhiskerwoodLogRuntimeState: the baseline of one watched file. */
  datatype RuntimeState = RuntimeState(lastLineCount: nat, hadFile: bool)

  /** The state a watch entry starts from, and returns to when its file vanishes. */
  const FreshState: RuntimeState := RuntimeState(0, false)

  /** What the scan finds at a path. */
  datatype FileView = Missing | Unreadable | Lines(lines: seq<string>)

  type LogFiles = string -> FileView

  /** One OnLogLines broadcast. */
  datatype Emission = Emission(id: FName, displayName: string, filePath: string, newLines: seq<string>)

  /** The ids RefreshFromSettings gives a state: every id that is not None. */
  function ConfigIds(configs: seq<LogWatchConfig>): set<FName> {
    set i | 0 <= i < |configs| && !configs[i].id.IsNone() :: configs[i].id
  }

  /** The runtime states right after RefreshFromSettings. */
  function InitialStates(configs: seq<LogWatchConfig>): (m: map<FName, RuntimeState>)
    ensures m.Keys == ConfigIds(configs)
    ensures forall id :: id in m ==> m[id] == FreshState
  {
    map id | id in ConfigIds(configs) :: FreshState
  }

  /** Adding one entry to the ids adds its id unless it is None. */
  lemma {:induction false} ConfigIdsSnoc(configs: seq<LogWatchConfig>, c: LogWatchConfig)
    ensures ConfigIds(configs + [c]) == if c.id.IsNone() then ConfigIds(configs) else ConfigIds(configs) + {c.id}
  {
    var all := configs + [c];
    forall id | id in ConfigIds(all)
      ensures id in (if c.id.IsNone() then ConfigIds(configs) else ConfigIds(configs) + {c.id})
    {
      var i :| 0 <= i < |all| && !all[i].id.IsNone() && all[i].id == id;
      if i < |configs| {
        assert configs[i] == all[i];
      }
    }
    forall id | id in ConfigIds(configs)
      ensures id in ConfigIds(all)
    {
      var i :| 0 <= i < |configs| && !configs[i].id.IsNone() && configs[i].id == id;
      assert all[i] == configs[i];
    }
    if !c.id.IsNone() {
      assert all[|configs|] == c;
    }
  }

  /** The scan leaves an entry alone: disabled, no id, or no path. */
  predicate Skipped(c: LogWatchConfig) {
    !c.enabled || c.id.IsNone() || c.logFilePath == ""
  }

  /** The runtime states and broadcasts after scanning some entries. */
  datatype ScanResult = ScanResult(states: map<FName, RuntimeState>, emitted: seq<Emission>)

  /** The baseline of an entry, created fresh when it has none. */
  function StateOf(states: map<FName, RuntimeState>, id: FName): RuntimeState {
    if id in states then states[id] else FreshState
  }

  /** One iteration of ScanOnce's loop, for entry `c`. */
  function ScanConfig(states: map<FName, RuntimeState>, c: LogWatchConfig, files: LogFiles): (r: ScanResult)
    // skipped entries keep their state and emit nothing
    ensures Skipped(c) ==> r == ScanResult(states, [])
    // otherwise only the entry's own state changes, and it now exists
    ensures !Skipped(c) ==> c.id in r.states && r.states == states[c.id := r.states[c.id]]
    // a vanished file resets the entry
    ensures !Skipped(c) && files(c.logFilePath).Missing? ==> r.states[c.id] == FreshState && r.emitted == []
    // an unreadable file changes nothing but creates the entry
    ensures !Skipped(c) && files(c.logFilePath).Unreadable? ==>
      r.states[c.id] == StateOf(states, c.id) && r.emitted == []
    // after a successful read the baseline is the file's line count
    ensures !Skipped(c) && files(c.logFilePath).Lines? ==>
      r.states[c.id] == RuntimeState(|files(c.logFilePath).lines|, true)
    // at most one broadcast, carrying exactly the lines after the old baseline
    ensures |r.emitted| <= 1
    ensures r.emitted != [] ==>
      && !Skipped(c) && files(c.logFilePath).Lines? && StateOf(states, c.id).hadFile
      && StateOf(states, c.id).lastLineCount < |files(c.logFilePath).lines|
      && r.emitted[0] == Emission(c.id, c.displayName, c.logFilePath,
                                  files(c.logFilePath).lines[StateOf(states, c.id).lastLineCount..])
      && r.emitted[0].newLines != []
  {
    if Skipped(c) then ScanResult(states, [])
    else
      var st := StateOf(states, c.id);
      match files(c.logFilePath)
      case Missing => ScanResult(states[c.id := FreshState], [])
      case Unreadable => ScanResult(states[c.id := st], [])
      case Lines(lines) =>
        var n := |lines|;
        if !st.hadFile then ScanResult(states[c.id := RuntimeState(n, true)], [])
        else if n <= st.lastLineCount then
          ScanResult(states[c.id := if n < st.lastLineCount then st.(lastLineCount := n) else st], [])
        else
          ScanResult(states[c.id := RuntimeState(n, true)],
                     [Emission(c.id, c.displayName, c.logFilePath, lines[st.lastLineCount..n])])
  }

  /** ScanOnce over `configs`, in order, starting from `states`. */
  function Scan(states: map<FName, RuntimeState>, configs: seq<LogWatchConfig>, files: LogFiles): ScanResult
    decreases |configs|
  {
    if configs == [] then ScanResult(states, [])
    else
      var r := Scan(states, configs[..|configs| - 1], files);
      var step := ScanConfig(r.states, configs[|configs| - 1], files);
      ScanResult(step.states, r.emitted + step.emitted)
  }

  /** The ids a scan may touch: those of entries it does not skip. */
  function ActiveIds(configs: seq<LogWatchConfig>): set<FName> {
    set i | 0 <= i < |configs| && !Skipped(configs[i]) :: configs[i].id
  }

  /**
   * A scan broadcasts at most once per entry and never touches the state
   * of an id no active entry carries.
   */
  lemma {:induction false} ScanTouchesOnlyActive(states: map<FName, RuntimeState>, configs: seq<LogWatchConfig>,
                                                 files: LogFiles, id: FName)
    requires id !in ActiveIds(configs)
    ensures var r := Scan(states, configs, files);
      && |r.emitted| <= |configs|
      && (id in r.states <==> id in states)
      && (id in states ==> r.states[id] == states[id])
    decreases |configs|
  {
    if configs != [] {
      var init := configs[..|configs| - 1];
      var c := configs[|configs| - 1];
      assert forall i :: 0 <= i < |init| ==> init[i] == configs[i];
      assert id !in ActiveIds(init);
      ScanTouchesOnlyActive(states, init, files, id);
      assert Skipped(c) || c.id != id;
    }
  }

  /**
   * The tail property: once an entry holds the baseline of a file, a scan
   * of that file grown by `more` broadcasts exactly `more`, once, and
   * nothing when nothing was appended.
   */
  lemma {:induction false} ScanEmitsAppendedLines(states: map<FName, RuntimeState>, c: LogWatchConfig,
                                                  files: LogFiles, lines: seq<string>, more: seq<string>)
    requires !Skipped(c) && c.id in states && states[c.id] == RuntimeState(|lines|, true)
    requires files(c.logFilePath) == Lines(lines + more)
    ensures var r := ScanConfig(states, c, files);
      && r.states[c.id] == RuntimeState(|lines| + |more|, true)
      && r.emitted == (if more == [] then [] else [Emission(c.id, c.displayName, c.logFilePath, more)])
  {
    var r := ScanConfig(states, c, files);
    assert (lines + more)[|lines|..] == more;
    if more != [] {
      assert |r.emitted| == 1;
    }
  }

  /** No two entries the scan processes share an id. */
  predicate DistinctActiveIds(configs: seq<LogWatchConfig>) {
    forall i, j :: 0 <= i < j < |configs| && !Skipped(configs[i]) && !Skipped(configs[j]) ==>
      configs[i].id != configs[j].id
  }

  /**
   * A scan from states that hold no baseline for any active entry only
   * records baselines, provided no two active entries share an id.
   */
  lemma {:induction false} ScanWithoutBaselinesIsSilent(states: map<FName, RuntimeState>, configs: seq<LogWatchConfig>,
                                                        files: LogFiles)
    requires DistinctActiveIds(configs)
    requires forall i :: 0 <= i < |configs| && !Skipped(configs[i]) ==> !StateOf(states, configs[i].id).hadFile
    ensures Scan(states, configs, files).emitted == []
    decreases |configs|
  {
    if configs != [] {
      var init := configs[..|configs| - 1];
      var c := configs[|configs| - 1];
      assert forall i :: 0 <= i < |init| ==> init[i] == configs[i];
      ScanWithoutBaselinesIsSilent(states, init, files);
      if !Skipped(c) {
        assert c.id !in ActiveIds(init);
        ScanTouchesOnlyActive(states, init, files, c.id);
        assert !StateOf(Scan(states, init, files).states, c.id).hadFile;
      }
    }
  }

  /**
   * After RefreshFromSettings (and so after every toggle that saves), the
   * next scan broadcasts nothing when the active ids are distinct.
   */
  lemma {:induction false} FirstScanAfterRefreshIsSilent(configs: seq<LogWatchConfig>, files: LogFiles)
    requires DistinctActiveIds(configs)
    ensures Scan(InitialStates(configs), configs, files).emitted == []
  {
    ScanWithoutBaselinesIsSilent(InitialStates(configs), configs, files);
  }

  /**
   * Two active entries with the same id share one baseline: whatever the
   * states before, once the first file is read the second file is compared
   * with the first file's line count, and its lines past that count are
   * broadcast as new.
   */
  lemma {:induction false} SharedIdShareBaseline(states: map<FName, RuntimeState>, a: LogWatchConfig, b: LogWatchConfig,
                                                 files: LogFiles, la: seq<string>, lb: seq<string>)
    requires !Skipped(a) && !Skipped(b) && a.id == b.id
    requires files(a.logFilePath) == Lines(la) && files(b.logFilePath) == Lines(lb)
    ensures var r := Scan(states, [a, b], files);
      && r.states[b.id] == RuntimeState(|lb|, true)
      && r.emitted == ScanConfig(states, a, files).emitted +
                      (if |la| < |lb| then [Emission(b.id, b.displayName, b.logFilePath, lb[|la|..])] else [])
  {
    assert [a, b][..1] == [a];
    assert [a][..0] == [];
    var r0 := Scan(states, [], files);
    assert r0 == ScanResult(states, []);
    var r1 := Scan(states, [a], files);
    assert r1 == ScanConfig(states, a, files);
    assert StateOf(r1.states, b.id) == RuntimeState(|la|, true);
    if |la| < |lb| {
      assert lb[|la|..|lb|] == lb[|la|..];
    }
  }

  /** The first sighting of a file only records its baseline. */
  lemma {:induction false} FirstSightingIsSilent(states: map<FName, RuntimeState>, c: LogWatchConfig, files: LogFiles)
    requires !Skipped(c) && !StateOf(states, c.id).hadFile && files(c.logFilePath).Lines?
    ensures var r := ScanConfig(states, c, files);
      r.emitted == [] && r.states[c.id] == RuntimeState(|files(c.logFilePath).lines|, true)
  {
  }

  /** Scanning an unchanged file a second time broadcasts nothing. */
  lemma {:induction false} RescanIsSilent(states: map<FName, RuntimeState>, c: LogWatchConfig, files: LogFiles)
    ensures var once := ScanConfig(states, c, files);
      ScanConfig(once.states, c, files).emitted == []
  {
    var once := ScanConfig(states, c, files);
    if !Skipped(c) && files(c.logFilePath).Lines? {
      assert StateOf(once.states, c.id) == RuntimeState(|files(c.logFilePath).lines|, true);
    }
  }

  /** The index of the first entry carrying `id`, or the number of entries. */
  function FirstWithId(configs: seq<LogWatchConfig>, id: FName): (k: nat)
    ensures k <= |configs|
    ensures k < |configs| ==> configs[k].id == id
    ensures forall j :: 0 <= j < k ==> configs[j].id != id
    decreases |configs|
  {
    if configs == [] then 0
    else if configs[0].id == id then 0
    else 1 + FirstWithId(configs[1..], id)
  }

  /** The entries after SetConfigEnabled: only the first match takes the flag. */
  function WithEnabled(configs: seq<LogWatchConfig>, id: FName, enabled: bool): (r: seq<LogWatchConfig>)
    ensures |r| == |configs|
    ensures forall i :: 0 <= i < |r| ==> r[i].id == configs[i].id
    ensures forall i :: 0 <= i < |r| && i != FirstWithId(configs, id) ==> r[i] == configs[i]
    ensures FirstWithId(configs, id) < |configs| ==>
      r[FirstWithId(configs, id)] == configs[FirstWithId(configs, id)].(enabled := enabled)
  {
    var k := FirstWithId(configs, id);
    if k < |configs| then configs[k := configs[k].(enabled := enabled)] else configs
  }

  /** Whether SetConfigEnabled changes anything, and so saves and refreshes. */
  predicate EnabledChanges(configs: seq<LogWatchConfig>, id: FName, enabled: bool) {
    var k := FirstWithId(configs, id);
    k < |configs| && configs[k].enabled != enabled
  }

  /**
   * A toggle changes something exactly when it changes the entries, and it
   * never changes which ids are watched.
   */
  lemma {:induction false} ToggleKeepsIds(configs: seq<LogWatchConfig>, id: FName, enabled: bool)
    ensures EnabledChanges(configs, id, enabled) <==> WithEnabled(configs, id, enabled) != configs
    ensures ConfigIds(WithEnabled(configs, id, enabled)) == ConfigIds(configs)
  {
    var r := WithEnabled(configs, id, enabled);
    var k := FirstWithId(configs, id);
    if k < |configs| && configs[k].enabled != enabled {
      assert r[k].enabled != configs[k].enabled;
    }
    forall x | x in ConfigIds(r) ensures x in ConfigIds(configs) {
      var i :| 0 <= i < |r| && !r[i].id.IsNone() && r[i].id == x;
      assert configs[i].id == x;
    }
    forall x | x in ConfigIds(configs) ensures x in ConfigIds(r) {
      var i :| 0 <= i < |configs| && !configs[i].id.IsNone() && configs[i].id == x;
      assert r[i].id == x;
    }
  }

  /** The watcher subsystem: the runtime states and the broadcasts so far. */
  class LogWatcherSubsystem {
    var runtimeStates: map<FName, RuntimeState>
    var emitted: seq<Emission>

    /** Initialize, without the ticker: the states of the current settings. */
    constructor (settings: EditorUserSettings?)
      ensures runtimeStates == (if settings == null then map[] else InitialStates(settings.logWatchConfigs))
      ensures emitted == []
    {
      emitted := [];
      runtimeStates := map[];
      new;
      RefreshFromSettings(settings);
    }

    /** RefreshFromSettings: one fresh state per id that is not None. */
    method RefreshFromSettings(settings: EditorUserSettings?)
      modifies this`runtimeStates
      ensures runtimeStates == (if settings == null then map[] else InitialStates(settings.logWatchConfigs))
    {
      runtimeStates := map[];
      if settings == null {
        return;
      }
      var configs := settings.logWatchConfigs;
      var i := 0;
      while i < |configs|
        invariant 0 <= i <= |configs|
        invariant runtimeStates == InitialStates(configs[..i])
      {
        var c := configs[i];
        assert configs[..i + 1] == configs[..i] + [c];
        ConfigIdsSnoc(configs[..i], c);
        if !c.id.IsNone() {
          runtimeStates := runtimeStates[c.id := FreshState];
        }
        i := i + 1;
      }
      assert configs[..i] == configs;
    }

    /**
     * SetConfigEnabled: give the first entry with the id the flag; when that
     * changed it, save the settings and rebuild every state.
     */
    method SetConfigEnabled(settings: EditorUserSettings?, configId: FName, enabled: bool)
      modifies this`runtimeStates, settings
      ensures configId.IsNone() || settings == null ==>
        runtimeStates == old(runtimeStates) && (settings != null ==> unchanged(settings))
      ensures !configId.IsNone() && settings != null ==>
        var changes := EnabledChanges(old(settings.logWatchConfigs), configId, enabled);
        && settings.Fields() == old(settings.Fields()).(logWatchConfigs := WithEnabled(old(settings.logWatchConfigs), configId, enabled))
        && (changes ==> settings.persisted == Some(settings.Fields()) && runtimeStates == InitialStates(settings.logWatchConfigs))
        && (!changes ==> settings.persisted == old(settings.persisted) && runtimeStates == old(runtimeStates))
    {
      if configId.IsNone() || settings == null {
        return;
      }
      var configs := settings.logWatchConfigs;
      var k := FindConfig(configs, configId);
      var changed := false;
      if k < |configs| && configs[k].enabled != enabled {
        settings.logWatchConfigs := configs[k := configs[k].(enabled := enabled)];
        changed := true;
      }
      if changed {
        settings.SaveSettings();
        RefreshFromSettings(settings);
      }
    }

    /**
     * ScanOnce: scan every entry in order, updating its baseline and
     * broadcasting the lines appended since the last scan.
     */
    method ScanOnce(settings: EditorUserSettings?, files: LogFiles)
      modifies this`runtimeStates, this`emitted
      ensures settings == null ==> runtimeStates == old(runtimeStates) && emitted == old(emitted)
      ensures settings != null ==>
        var r := Scan(old(runtimeStates), settings.logWatchConfigs, files);
        runtimeStates == r.states && emitted == old(emitted) + r.emitted
    {
      if settings == null {
        return;
      }
      var configs := settings.logWatchConfigs;
      var i := 0;
      while i < |configs|
        invariant 0 <= i <= |configs|
        invariant runtimeStates == Scan(old(runtimeStates), configs[..i], files).states
        invariant emitted == old(emitted) + Scan(old(runtimeStates), configs[..i], files).emitted
      {
        assert configs[..i + 1][..i] == configs[..i];
        ScanEntry(configs[i], files);
        i := i + 1;
      }
      assert configs[..i] == configs;
    }

    /** The body of ScanOnce's loop for one entry. */
    method ScanEntry(c: LogWatchConfig, files: LogFiles)
      modifies this`runtimeStates, this`emitted
      ensures var r := ScanConfig(old(runtimeStates), c, files);
        runtimeStates == r.states && emitted == old(emitted) + r.emitted
    {
      if !c.enabled || c.id.IsNone() {
        return;
      }
      var filePath := c.logFilePath;
      if filePath == "" {
        return;
      }
      if c.id !in runtimeStates {
        runtimeStates := runtimeStates[c.id := FreshState];
      }
      var state := runtimeStates[c.id];
      var view := files(filePath);
      if view.Missing? {
        runtimeStates := runtimeStates[c.id := FreshState];
        return;
      }
      if view.Unreadable? {
        return;
      }
      var lines := view.lines;
      var newLineCount := |lines|;
      if !state.hadFile {
        runtimeStates := runtimeStates[c.id := RuntimeState(newLineCount, true)];
        return;
      }
      if newLineCount <= state.lastLineCount {
        if newLineCount < state.lastLineCount {
          runtimeStates := runtimeStates[c.id := state.(lastLineCount := newLineCount)];
        }
        return;
      }
      var newLines := CollectNewLines(lines, state.lastLineCount);
      runtimeStates := runtimeStates[c.id := state.(lastLineCount := newLineCount)];
      if |newLines| > 0 {
        emitted := emitted + [Emission(c.id, c.displayName, filePath, newLines)];
      }
    }
  }

  /** The lines from index `from` on, gathered one by one. */
  method CollectNewLines(lines: seq<string>, from: nat) returns (newLines: seq<string>)
    requires from <= |lines|
    ensures newLines == lines[from..]
    ensures |newLines| == |lines| - from
  {
    newLines := [];
    var index := from;
    while index < |lines|
      invariant from <= index <= |lines|
      invariant newLines == lines[from..index]
    {
      newLines := newLines + [lines[index]];
      index := index + 1;
    }
  }

  /** The first entry carrying `id`, as SetConfigEnabled's loop finds it. */
  method FindConfig(configs: seq<LogWatchConfig>, id: FName) returns (k: nat)
    ensures k == FirstWithId(configs, id)
  {
    k := 0;
    while k < |configs|
      invariant k <= |configs|
      invariant forall j :: 0 <= j < k ==> configs[j].id != id
    {
      if configs[k].id == id {
        return;
      }
      k := k + 1;
    }
  }
}
