/**
 * The editor plugin's safety-gated file library (UWhiskerwoodFileIOLibrary):
 * every destination of a delete, directory creation, copy or write must
 * contain "whiskerwood" in some letter case, and the mods directory is
 * derived from LOCALAPPDATA.
 *
 * Each operation is a method over a FileSystem object, proved against a
 * function of the filesystem state (the *Spec functions) whose contracts
 * state what the operation promises.
 */
module FileIO {
  import opened Paths
  import opened Platform

  const SafetyToken: string := "whiskerwood"

  /** The gate's verdict and the standardized path it computed. */
  datatype Gate = Gate(ok: bool, normalized: string)

  lemma TokenHasNoSeparator()
    ensures NoSeparator(ToLower(SafetyToken))
  {
  }

  /**
   * IsWhiskerwoodSafeDestPath (also used, unchanged, as the delete gate):
   * the standardized path is accepted exactly when it contains the token,
   * anywhere and in any letter case; an empty path is refused.
   */
  function SafeDestPath(path: string): (g: Gate)
    ensures g.normalized == Standardize(path)
    ensures g.ok <==> ContainsIgnoreCase(path, SafetyToken)
    ensures g.ok <==> ContainsIgnoreCase(g.normalized, SafetyToken)
    ensures path == "" ==> !g.ok
  {
    var n := Standardize(path);
    TokenHasNoSeparator();
    StandardizeKeepsToken(path, SafetyToken);
    if n == "" then Gate(false, n)
    else if !ContainsIgnoreCase(n, SafetyToken) then Gate(false, n)
    else Gate(true, n)
  }

  // ---------------------------------------------------------------------
  // What the gate protects
  // ---------------------------------------------------------------------

  /**
   * From `a` to `b`, no file entry whose path lacks the token was created,
   * removed or rewritten, no directory whose path lacks the token was
   * removed, and the set of locked paths is the same.
   */
  predicate Guarded(a: FsState, b: FsState) {
    && (forall k :: k in a.files && !ContainsIgnoreCase(k, SafetyToken) ==> k in b.files && b.files[k] == a.files[k])
    && (forall k :: k in b.files && !ContainsIgnoreCase(k, SafetyToken) ==> k in a.files)
    && (forall d :: d in a.dirs && !ContainsIgnoreCase(d, SafetyToken) ==> d in b.dirs)
    && a.locked == b.locked
  }

  lemma GuardedTrans(a: FsState, b: FsState, c: FsState)
    requires Guarded(a, b) && Guarded(b, c)
    ensures Guarded(a, c)
  {
  }

  /** Everything inside a directory that carries the token carries it too. */
  lemma UnderInheritsToken(x: string, d: string)
    requires Under(x, d) && ContainsIgnoreCase(d, SafetyToken)
    ensures ContainsIgnoreCase(x, SafetyToken)
  {
    assert x[..|d|] == d;
    assert x == d + x[|d|..];
    ContainsIgnoreCaseInPrefix(d, x[|d|..], SafetyToken);
  }

  // ---------------------------------------------------------------------
  // The operations as functions of the filesystem state
  // ---------------------------------------------------------------------

  /** DeleteWhiskerwoodFile. */
  function DeleteFileSpec(st: FsState, filePath: string): (r: Step)
    ensures r.ok <==> ContainsIgnoreCase(filePath, SafetyToken) && FileExists(st, filePath) && Key(filePath) !in st.locked
    ensures !r.ok ==> r.fs == st
    ensures r.ok ==> !FileExists(r.fs, filePath) && r.fs.dirs == st.dirs
    ensures r.ok ==> forall k :: k in st.files && k != Key(filePath) ==> k in r.fs.files
    ensures r.ok ==> r.fs.files == st.files - {Key(filePath)} && r.fs.locked == st.locked
    ensures Guarded(st, r.fs)
  {
    var g := SafeDestPath(filePath);
    StandardizeIdempotent(filePath);
    if !g.ok || !FileExists(st, g.normalized) then Step(st, false)
    else DeleteFilePrim(st, g.normalized)
  }

  /** DeleteWhiskerwoodDirectory: the directory and everything under it. */
  function DeleteDirectorySpec(st: FsState, dirPath: string): (r: Step)
    ensures r.ok <==> ContainsIgnoreCase(dirPath, SafetyToken) && DirectoryExists(st, dirPath) && Key(dirPath) !in st.locked
    ensures !r.ok ==> r.fs == st
    ensures r.ok ==> !DirectoryExists(r.fs, dirPath)
    ensures r.ok ==> forall f :: f in r.fs.files ==> !Under(f, Key(dirPath))
    ensures r.ok ==> forall f :: f in st.files && !Under(f, Key(dirPath)) ==> f in r.fs.files
    ensures r.ok ==> r.fs.files == (map f | f in st.files && !Under(f, Key(dirPath)) :: st.files[f])
    ensures r.ok ==> r.fs.dirs == (set d | d in st.dirs && d != Key(dirPath) && !Under(d, Key(dirPath)))
    ensures r.ok ==> r.fs.locked == st.locked
    ensures Guarded(st, r.fs)
  {
    var g := SafeDestPath(dirPath);
    StandardizeIdempotent(dirPath);
    if !g.ok || !DirectoryExists(st, g.normalized) then Step(st, false)
    else
      var r := DeleteDirectoryPrim(st, g.normalized);
      assert forall x :: Under(x, g.normalized) ==> ContainsIgnoreCase(x, SafetyToken) by {
        forall x | Under(x, g.normalized) ensures ContainsIgnoreCase(x, SafetyToken) {
          UnderInheritsToken(x, g.normalized);
        }
      }
      r
  }

  /** EnsureWhiskerwoodDirectory. */
  function EnsureDirectorySpec(st: FsState, dirPath: string): (r: Step)
    ensures r.ok <==> ContainsIgnoreCase(dirPath, SafetyToken) && (DirectoryExists(st, dirPath) || Key(dirPath) !in st.locked)
    ensures r.ok ==> DirectoryExists(r.fs, dirPath)
    ensures r.fs.files == st.files && r.fs.locked == st.locked && st.dirs <= r.fs.dirs
    ensures DirectoryExists(st, dirPath) ==> r.fs == st
    ensures !r.ok ==> r.fs == st
    ensures Guarded(st, r.fs)
  {
    var g := SafeDestPath(dirPath);
    StandardizeIdempotent(dirPath);
    if !g.ok then Step(st, false)
    else if DirectoryExists(st, g.normalized) then Step(st, true)
    else CreateDirectoryTreePrim(st, g.normalized)
  }

  /**
   * The directory step shared by copy and write: the parent of the
   * standardized destination is ensured through the gated
   * EnsureWhiskerwoodDirectory, unless there is no parent.
   */
  function EnsureParentSpec(st: FsState, normalized: string): (r: Step)
    ensures r.fs.files == st.files && r.fs.locked == st.locked && st.dirs <= r.fs.dirs
    ensures !r.ok ==> r.fs == st
    ensures r.ok ==> GetPath(normalized) == "" || ContainsIgnoreCase(GetPath(normalized), SafetyToken)
    ensures Guarded(st, r.fs)
  {
    var dir := GetPath(normalized);
    if dir == "" then Step(st, true) else EnsureDirectorySpec(st, dir)
  }

  /** CopyWhiskerwoodFile: the source is anywhere, the destination is gated. */
  function CopySpec(st: FsState, sourcePath: string, destPath: string, overwrite: bool): (r: Step)
    ensures r.ok <==>
      && sourcePath != ""
      && FileExists(st, sourcePath)
      && ContainsIgnoreCase(destPath, SafetyToken)
      && (overwrite || !FileExists(st, destPath))
      && EnsureParentSpec(st, Standardize(destPath)).ok
      && Key(destPath) !in st.locked
    ensures r.ok ==> FileExists(r.fs, destPath) && r.fs.files[Key(destPath)] == st.files[Key(sourcePath)]
    ensures r.ok ==> forall k :: k in st.files && k != Key(destPath) ==> k in r.fs.files && r.fs.files[k] == st.files[k]
    ensures !r.ok ==> r.fs.files == st.files
    ensures !overwrite && FileExists(st, destPath) ==> r.fs == st
    ensures Guarded(st, r.fs)
  {
    var src := Standardize(sourcePath);
    StandardizeIdempotent(sourcePath);
    StandardizeIdempotent(destPath);
    if src == "" || !FileExists(st, src) then Step(st, false)
    else
      var g := SafeDestPath(destPath);
      if !g.ok then Step(st, false)
      else if !overwrite && FileExists(st, g.normalized) then Step(st, false)
      else
        var e := EnsureParentSpec(st, g.normalized);
        if !e.ok then Step(e.fs, false)
        else
          var r := CopyFilePrim(e.fs, g.normalized, src);
          GuardedTrans(st, e.fs, r.fs);
          r
  }

  /** WriteWhiskerwoodTextFile. */
  function WriteSpec(st: FsState, filePath: string, text: string, overwrite: bool): (r: Step)
    ensures r.ok <==>
      && ContainsIgnoreCase(filePath, SafetyToken)
      && (overwrite || !FileExists(st, filePath))
      && EnsureParentSpec(st, Standardize(filePath)).ok
      && Key(filePath) !in st.locked
    ensures r.ok ==> FileExists(r.fs, filePath) && r.fs.files[Key(filePath)] == Text(text)
    ensures r.ok ==> forall k :: k in st.files && k != Key(filePath) ==> k in r.fs.files && r.fs.files[k] == st.files[k]
    ensures !r.ok ==> r.fs.files == st.files
    ensures !overwrite && FileExists(st, filePath) ==> r.fs == st
    ensures Guarded(st, r.fs)
  {
    var g := SafeDestPath(filePath);
    StandardizeIdempotent(filePath);
    if !g.ok then Step(st, false)
    else if !overwrite && FileExists(st, g.normalized) then Step(st, false)
    else
      var e := EnsureParentSpec(st, g.normalized);
      if !e.ok then Step(e.fs, false)
      else
        var r := SaveFilePrim(e.fs, g.normalized, Text(text));
        GuardedTrans(st, e.fs, r.fs);
        r
  }

  // ---------------------------------------------------------------------
  // Properties relating several operations
  // ---------------------------------------------------------------------

  /** A path the gate refuses makes every operation fail with no change. */
  lemma RejectedPathChangesNothing(st: FsState, path: string, source: string, text: string, overwrite: bool)
    requires !SafeDestPath(path).ok
    ensures DeleteFileSpec(st, path) == Step(st, false)
    ensures DeleteDirectorySpec(st, path) == Step(st, false)
    ensures EnsureDirectorySpec(st, path) == Step(st, false)
    ensures CopySpec(st, source, path, overwrite) == Step(st, false)
    ensures WriteSpec(st, path, text, overwrite) == Step(st, false)
  {
  }

  /**
   * Copy never gates its source: a source path without the token is copied
   * just as well, and only the destination decides.
   */
  lemma {:induction false} CopyIgnoresSourceToken(st: FsState, src1: string, src2: string, dest: string, overwrite: bool)
    requires src1 != "" && src2 != "" && FileExists(st, src1) && FileExists(st, src2)
    ensures CopySpec(st, src1, dest, overwrite).ok == CopySpec(st, src2, dest, overwrite).ok
  {
  }

  /** Ensuring a directory twice is the same as ensuring it once. */
  lemma EnsureIdempotent(st: FsState, dirPath: string)
    ensures var r := EnsureDirectorySpec(st, dirPath);
      EnsureDirectorySpec(r.fs, dirPath) == Step(r.fs, r.ok)
  {
  }

  /**
   * A write succeeds only when the destination's parent directory passes
   * the gate as well: a token that appears only in the file name is not
   * enough.
   */
  lemma WriteNeedsGatedParent(st: FsState, filePath: string, text: string, overwrite: bool)
    requires WriteSpec(st, filePath, text, overwrite).ok
    ensures var parent := GetPath(Standardize(filePath));
      parent == "" || ContainsIgnoreCase(parent, SafetyToken)
  {
  }

  // ---------------------------------------------------------------------
  // The mods directory
  // ---------------------------------------------------------------------

  /** LOCALAPPDATA, or the project's Saved directory when it is unset. */
  function AppDataBase(host: HostEnv): string {
    if host.localAppData == "" then host.projectSavedDir else host.localAppData
  }

  /** `<base>/Whiskerwood`, normalized: the game's own data folder. */
  function WhiskerwoodRoot(host: HostEnv): string {
    NormalizeDirectoryName(Join(AppDataBase(host), "Whiskerwood"))
  }

  lemma {:induction false} WhiskerwoodRootFacts(host: HostEnv)
    ensures var w := Join(AppDataBase(host), "Whiskerwood");
      WhiskerwoodRoot(host) == Standardize(w)
    ensures var root := WhiskerwoodRoot(host);
      && root != "" && root[|root| - 1] == 'd' && NoBackslash(root)
      && ContainsIgnoreCase(root, SafetyToken)
  {
    var base := AppDataBase(host);
    var w := Join(base, "Whiskerwood");
    var pre := if base != "" && !IsSeparator(base[|base| - 1]) then base + "/" else base;
    assert w == pre + "Whiskerwood";
    var t := Standardize(w);
    assert t[|t| - 1] == 'd';
    assert ToLower("Whiskerwood") == SafetyToken;
    assert ContainsAt(ToLower("Whiskerwood"), ToLower(SafetyToken), 0);
    ContainsIgnoreCaseInSuffix(pre, "Whiskerwood", SafetyToken);
    TokenHasNoSeparator();
    StandardizeKeepsToken(w, SafetyToken);
  }

  /** The path GetWhiskerwoodModsDirectory builds before normalizing it. */
  function ModsJoin(host: HostEnv): string {
    Join(Join(Join(AppDataBase(host), "Whiskerwood"), "Saved"), "mods")
  }

  lemma {:induction false} ModsJoinFacts(host: HostEnv)
    ensures Standardize(ModsJoin(host)) == WhiskerwoodRoot(host) + "/Saved/mods"
  {
    var w := Join(AppDataBase(host), "Whiskerwood");
    WhiskerwoodRootFacts(host);
    assert w != "" && w[|w| - 1] == 'd';
    JoinAppends(w, "Saved");
    var ws := w + "/" + "Saved";
    assert ws[|ws| - 1] == 'd';
    JoinAppends(ws, "mods");
    assert ModsJoin(host) == w + "/Saved/mods";
    StandardizeAppend(w, "/Saved/mods");
  }

  lemma {:induction false} ModsDirectoryIsNormalized(host: HostEnv)
    ensures NormalizeDirectoryName(ModsJoin(host)) == WhiskerwoodRoot(host) + "/Saved/mods"
    ensures IsNormalizedDirectory(WhiskerwoodRoot(host) + "/Saved/mods")
  {
    var root := WhiskerwoodRoot(host);
    WhiskerwoodRootFacts(host);
    ModsJoinFacts(host);
    var r := root + "/Saved/mods";
    assert r[|r| - 1] == 's';
    assert NoBackslash(r);
    NormalizedWhenClean(r);
  }

  lemma {:induction false} ParentsOfSavedMods(root: string)
    requires root != "" && !IsSeparator(root[|root| - 1])
    ensures GetPath(GetPath(root + "/Saved/mods")) == root
  {
    GetPathOfJoin(root, "Saved");
    var saved := root + "/" + "Saved";
    assert saved[|saved| - 1] == 'd';
    GetPathOfJoin(saved, "mods");
    assert saved + "/" + "mods" == root + "/Saved/mods";
  }

  lemma {:induction false} ModsDirectoryParents(host: HostEnv)
    ensures GetPath(GetPath(WhiskerwoodRoot(host) + "/Saved/mods")) == WhiskerwoodRoot(host)
  {
    WhiskerwoodRootFacts(host);
    ParentsOfSavedMods(WhiskerwoodRoot(host));
  }

  /**
   * GetWhiskerwoodModsDirectory: `<base>/Whiskerwood/Saved/mods`, which
   * always passes the gate and whose grandparent is the Whiskerwood folder.
   */
  function GetWhiskerwoodModsDirectory(host: HostEnv): (r: string)
    ensures r == WhiskerwoodRoot(host) + "/Saved/mods"
    ensures SafeDestPath(r).ok
    ensures GetPath(GetPath(r)) == WhiskerwoodRoot(host)
    ensures IsNormalizedDirectory(r)
  {
    ModsDirectoryIsNormalized(host);
    ModsDirectoryParents(host);
    WhiskerwoodRootFacts(host);
    ContainsIgnoreCaseInPrefix(WhiskerwoodRoot(host), "/Saved/mods", SafetyToken);
    NormalizeDirectoryName(ModsJoin(host))
  }

  // ---------------------------------------------------------------------
  // The operations over a filesystem object
  // ---------------------------------------------------------------------

  method DeleteWhiskerwoodFile(fs: FileSystem, filePath: string) returns (ok: bool)
    modifies fs
    ensures Step(fs.State(), ok) == DeleteFileSpec(old(fs.State()), filePath)
  {
    var g := SafeDestPath(filePath);
    StandardizeIdempotent(filePath);
    if !g.ok {
      return false;
    }
    if !fs.FileExistsNow(g.normalized) {
      return false;
    }
    ok := fs.DeleteFile(g.normalized);
  }

  method DeleteWhiskerwoodDirectory(fs: FileSystem, dirPath: string) returns (ok: bool)
    modifies fs
    ensures Step(fs.State(), ok) == DeleteDirectorySpec(old(fs.State()), dirPath)
  {
    var g := SafeDestPath(dirPath);
    StandardizeIdempotent(dirPath);
    if !g.ok {
      return false;
    }
    if !fs.DirectoryExistsNow(g.normalized) {
      return false;
    }
    ok := fs.DeleteDirectoryRecursively(g.normalized);
  }

  method EnsureWhiskerwoodDirectory(fs: FileSystem, dirPath: string) returns (ok: bool)
    modifies fs
    ensures Step(fs.State(), ok) == EnsureDirectorySpec(old(fs.State()), dirPath)
  {
    var g := SafeDestPath(dirPath);
    StandardizeIdempotent(dirPath);
    if !g.ok {
      return false;
    }
    if fs.DirectoryExistsNow(g.normalized) {
      return true;
    }
    ok := fs.CreateDirectoryTree(g.normalized);
  }

  method CopyWhiskerwoodFile(fs: FileSystem, sourcePath: string, destPath: string, overwrite: bool) returns (ok: bool)
    modifies fs
    ensures Step(fs.State(), ok) == CopySpec(old(fs.State()), sourcePath, destPath, overwrite)
  {
    var src := Standardize(sourcePath);
    StandardizeIdempotent(sourcePath);
    StandardizeIdempotent(destPath);
    if src == "" {
      return false;
    }
    if !fs.FileExistsNow(src) {
      return false;
    }
    var g := SafeDestPath(destPath);
    if !g.ok {
      return false;
    }
    if !overwrite && fs.FileExistsNow(g.normalized) {
      return false;
    }
    var dir := GetPath(g.normalized);
    if dir != "" {
      var made := EnsureWhiskerwoodDirectory(fs, dir);
      if !made {
        return false;
      }
    }
    ok := fs.CopyFile(g.normalized, src);
  }

  method WriteWhiskerwoodTextFile(fs: FileSystem, filePath: string, text: string, overwrite: bool) returns (ok: bool)
    modifies fs
    ensures Step(fs.State(), ok) == WriteSpec(old(fs.State()), filePath, text, overwrite)
  {
    var g := SafeDestPath(filePath);
    StandardizeIdempotent(filePath);
    if !g.ok {
      return false;
    }
    if !overwrite && fs.FileExistsNow(g.normalized) {
      return false;
    }
    var dir := GetPath(g.normalized);
    if dir != "" {
      var made := EnsureWhiskerwoodDirectory(fs, dir);
      if !made {
        return false;
      }
    }
    ok := fs.SaveFile(g.normalized, Text(text));
  }
}
