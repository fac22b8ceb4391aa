/**
 * The host the tools run on: the environment they read paths from and an
 * abstract filesystem with the platform-file primitives the libraries call
 * (FileExists, DirectoryExists, DeleteFile, DeleteDirectoryRecursively,
 * CreateDirectoryTree, CopyFile and saving a file).
 *
 * Paths are keyed by their standardized form, so "a\b" and "a/b" name the
 * same entry. A path in `locked` is one the operating system refuses to
 * write or delete: this is what makes a primitive fail.
 */
module Platform {
  import opened Paths

  /** What the tools read from the process environment and the engine. */
  datatype HostEnv = HostEnv(
    localAppData: string,     // the LOCALAPPDATA environment variable
    projectSavedDir: string,  // FPaths::ProjectSavedDir(), already absolute
    projectDir: string        // FPaths::ProjectDir(), already absolute
  )

  /** Descriptor values: strings and integers are all the tools write. */
  datatype JsonValue = JString(s: string) | JNumber(n: int)

  /** A file's contents: plain text or a serialized JSON object. */
  datatype Content = Text(text: string) | Json(fields: map<string, JsonValue>)

  datatype FsState = FsState(files: map<string, Content>, dirs: set<string>, locked: set<string>)

  /** The state after an operation and the boolean the operation returned. */
  datatype Step = Step(fs: FsState, ok: bool)

  /** The key a path is stored under. */
  function Key(p: string): string { Standardize(p) }

  predicate FileExists(st: FsState, p: string) { Key(p) in st.files }

  predicate DirectoryExists(st: FsState, p: string) { Key(p) in st.dirs }

  /** `x` lies strictly inside directory `d`. */
  predicate Under(x: string, d: string) {
    |d| < |x| && x[..|d| + 1] == d + "/"
  }

  /** A directory and all its ancestors, as CreateDirectoryTree creates them. */
  function Ancestry(q: string): (r: set<string>)
    ensures q != "" ==> q in r
    ensures "" !in r
    decreases |q|
  {
    if q == "" then {} else {q} + Ancestry(GetPath(q))
  }

  // ---------------------------------------------------------------------
  // Platform-file primitives, as functions of the filesystem state
  // ---------------------------------------------------------------------

  function DeleteFilePrim(st: FsState, p: string): Step {
    var k := Key(p);
    if k in st.files && k !in st.locked then Step(st.(files := st.files - {k}), true)
    else Step(st, false)
  }

  function DeleteDirectoryPrim(st: FsState, p: string): Step {
    var k := Key(p);
    if k in st.dirs && k !in st.locked then
      Step(st.(files := map f | f in st.files && !Under(f, k) :: st.files[f],
               dirs := set d | d in st.dirs && d != k && !Under(d, k)), true)
    else Step(st, false)
  }

  function CreateDirectoryTreePrim(st: FsState, p: string): Step {
    var k := Key(p);
    if k in st.locked then Step(st, false)
    else Step(st.(dirs := st.dirs + Ancestry(k)), true)
  }

  function CopyFilePrim(st: FsState, dest: string, src: string): Step {
    if Key(src) in st.files && Key(dest) !in st.locked then
      Step(st.(files := st.files[Key(dest) := st.files[Key(src)]]), true)
    else Step(st, false)
  }

  function SaveFilePrim(st: FsState, p: string, c: Content): Step {
    if Key(p) !in st.locked then Step(st.(files := st.files[Key(p) := c]), true)
    else Step(st, false)
  }

  /**
   * FFileHelper::SaveStringToFile: the file writer creates the missing
   * parent directories, then writes the file.
   */
  function SaveStringToFilePrim(st: FsState, p: string, c: Content): Step {
    if Key(p) !in st.locked then
      Step(st.(files := st.files[Key(p) := c], dirs := st.dirs + Ancestry(GetPath(Key(p)))), true)
    else Step(st, false)
  }

  /** A file combined onto a clean directory lies inside it, once keyed. */
  lemma {:induction false} UnderJoin(a: string, b: string)
    requires a != "" && !IsSeparator(a[|a| - 1])
    requires b != "" && b[0] != '/'
    ensures Under(Key(Join(a, b)), Key(a))
  {
    JoinAppends(a, b);
    StandardizeAppend(a + "/", b);
    StandardizeAppend(a, "/");
    assert Key(Join(a, b)) == Key(a) + "/" + Standardize(b);
  }

  /** The filesystem the tools mutate. */
  class FileSystem {
    var files: map<string, Content>
    var dirs: set<string>
    var locked: set<string>

    function State(): FsState
      reads this
    {
      FsState(files, dirs, locked)
    }

    constructor (init: FsState)
      ensures State() == init
    {
      files, dirs, locked := init.files, init.dirs, init.locked;
    }

    predicate FileExistsNow(p: string)
      reads this
    {
      Key(p) in files
    }

    predicate DirectoryExistsNow(p: string)
      reads this
    {
      Key(p) in dirs
    }

    method DeleteFile(p: string) returns (ok: bool)
      modifies this
      ensures Step(State(), ok) == DeleteFilePrim(old(State()), p)
    {
      var k := Key(p);
      ok := k in files && k !in locked;
      if ok {
        files := files - {k};
      }
    }

    method DeleteDirectoryRecursively(p: string) returns (ok: bool)
      modifies this
      ensures Step(State(), ok) == DeleteDirectoryPrim(old(State()), p)
    {
      var k := Key(p);
      ok := k in dirs && k !in locked;
      if ok {
        files := map f | f in files && !Under(f, k) :: files[f];
        dirs := set d | d in dirs && d != k && !Under(d, k);
      }
    }

    method CreateDirectoryTree(p: string) returns (ok: bool)
      modifies this
      ensures Step(State(), ok) == CreateDirectoryTreePrim(old(State()), p)
    {
      var k := Key(p);
      ok := k !in locked;
      if ok {
        dirs := dirs + Ancestry(k);
      }
    }

    method CopyFile(dest: string, src: string) returns (ok: bool)
      modifies this
      ensures Step(State(), ok) == CopyFilePrim(old(State()), dest, src)
    {
      ok := Key(src) in files && Key(dest) !in locked;
      if ok {
        files := files[Key(dest) := files[Key(src)]];
      }
    }

    method SaveFile(p: string, c: Content) returns (ok: bool)
      modifies this
      ensures Step(State(), ok) == SaveFilePrim(old(State()), p, c)
    {
      ok := Key(p) !in locked;
      if ok {
        files := files[Key(p) := c];
      }
    }

    method SaveStringToFile(p: string, c: Content) returns (ok: bool)
      modifies this
      ensures Step(State(), ok) == SaveStringToFilePrim(old(State()), p, c)
    {
      ok := Key(p) !in locked;
      if ok {
        files := files[Key(p) := c];
        dirs := dirs + Ancestry(GetPath(Key(p)));
      }
    }
  }
}
