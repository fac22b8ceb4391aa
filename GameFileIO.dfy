/**
 * The game module's copy of the safety-gated file library. Its gate tests
 * the token before it tests for emptiness; everything else is the plugin's
 * code again. Each operation here is proved against the plugin's
 * specification functions, so the two copies provably behave alike.
 */
module GameFileIO {
  import opened Paths
  import opened Platform
  import opened FileIO

  /**
   * The game module's IsWhiskerwoodSafeDestPath. The emptiness test comes
   * second and can never refuse anything, because an empty path never
   * contains the token; the verdict is always the plugin gate's.
   */
  function GameSafeDestPath(path: string): (g: Gate)
    ensures g == SafeDestPath(path)
  {
    var n := Standardize(path);
    if !ContainsIgnoreCase(n, SafetyToken) then Gate(false, n)
    else if n == "" then Gate(false, n)
    else Gate(true, n)
  }

  method DeleteWhiskerwoodFile(fs: FileSystem, filePath: string) returns (ok: bool)
    modifies fs
    ensures Step(fs.State(), ok) == DeleteFileSpec(old(fs.State()), filePath)
  {
    var g := GameSafeDestPath(filePath);
    StandardizeIdempotent(filePath);
    if !g.ok {
      return false;
    }
    if !fs.FileExistsNow(g.normalized) {
      return false;
    }
    ok := fs.DeleteFile(g.normalized);
  }

  method DeleteWhiskerwoodDirectory(fs: FileSystem, dirPath: string) returns (ok: bool)
    modifies fs
    ensures Step(fs.State(), ok) == DeleteDirectorySpec(old(fs.State()), dirPath)
  {
    var g := GameSafeDestPath(dirPath);
    StandardizeIdempotent(dirPath);
    if !g.ok {
      return false;
    }
    if !fs.DirectoryExistsNow(g.normalized) {
      return false;
    }
    ok := fs.DeleteDirectoryRecursively(g.normalized);
  }

  method EnsureWhiskerwoodDirectory(fs: FileSystem, dirPath: string) returns (ok: bool)
    modifies fs
    ensures Step(fs.State(), ok) == EnsureDirectorySpec(old(fs.State()), dirPath)
  {
    var g := GameSafeDestPath(dirPath);
    StandardizeIdempotent(dirPath);
    if !g.ok {
      return false;
    }
    if fs.DirectoryExistsNow(g.normalized) {
      return true;
    }
    ok := fs.CreateDirectoryTree(g.normalized);
  }

  method CopyWhiskerwoodFile(fs: FileSystem, sourcePath: string, destPath: string, overwrite: bool) returns (ok: bool)
    modifies fs
    ensures Step(fs.State(), ok) == CopySpec(old(fs.State()), sourcePath, destPath, overwrite)
  {
    var src := Standardize(sourcePath);
    StandardizeIdempotent(sourcePath);
    StandardizeIdempotent(destPath);
    if src == "" {
      return false;
    }
    if !fs.FileExistsNow(src) {
      return false;
    }
    var g := GameSafeDestPath(destPath);
    if !g.ok {
      return false;
    }
    if !overwrite && fs.FileExistsNow(g.normalized) {
      return false;
    }
    var dir := GetPath(g.normalized);
    if dir != "" {
      var made := EnsureWhiskerwoodDirectory(fs, dir);
      if !made {
        return false;
      }
    }
    ok := fs.CopyFile(g.normalized, src);
  }

  method WriteWhiskerwoodTextFile(fs: FileSystem, filePath: string, text: string, overwrite: bool) returns (ok: bool)
    modifies fs
    ensures Step(fs.State(), ok) == WriteSpec(old(fs.State()), filePath, text, overwrite)
  {
    var g := GameSafeDestPath(filePath);
    StandardizeIdempotent(filePath);
    if !g.ok {
      return false;
    }
    if !overwrite && fs.FileExistsNow(g.normalized) {
      return false;
    }
    var dir := GetPath(g.normalized);
    if dir != "" {
      var made := EnsureWhiskerwoodDirectory(fs, dir);
      if !made {
        return false;
      }
    }
    ok := fs.SaveFile(g.normalized, Text(text));
  }
}
