/** The part of Node's `fs` module the credential store touches: `readFile`,
    `writeFile`, `mkdir` and `existsSync`, as total functions on a snapshot
    of the disk. A call either succeeds or fails; the errno a failure
    carries is never inspected by the program, so it is not modelled.
 */
module FileSystem {
  import opened Wrappers
  import opened Paths

  /** Regular files with their contents, directories, and the paths the
      process may not create or overwrite (permissions, read-only media). */
  datatype Fs = Fs(files: map<Path, string>, dirs: set<Path>, locked: set<Path>)

  function Parent(p: Path): Path
    requires |p| > 0
  {
    p[..|p| - 1]
  }

  /** `existsSync(p)`: true for files and directories alike. */
  predicate Exists(fs: Fs, p: Path) {
    p in fs.files || p in fs.dirs
  }

  /** `readFile(p)`: the contents, or an error (missing file, a directory). */
  function ReadFile(fs: Fs, p: Path): (r: Option<string>)
    ensures r.Some? <==> p in fs.files && p !in fs.dirs
    ensures r.Some? ==> r.value == fs.files[p]
  {
    if p in fs.files && p !in fs.dirs then Some(fs.files[p]) else None
  }

  /** Whether `writeFile(p)` succeeds: the parent directory exists, the path is
      not a directory and may be written. */
  predicate CanWrite(fs: Fs, p: Path) {
    |p| > 0 && Parent(p) in fs.dirs && p !in fs.dirs && p !in fs.locked
  }

  /** `writeFile(p, data)`: creates or replaces the file. */
  function WriteFile(fs: Fs, p: Path, data: string): (r: Option<Fs>)
    ensures r.Some? <==> CanWrite(fs, p)
    ensures r.Some? ==> ReadFile(r.value, p) == Some(data)
    ensures r.Some? ==> r.value.dirs == fs.dirs && r.value.locked == fs.locked
    ensures r.Some? ==> forall q :: q != p ==> ReadFile(r.value, q) == ReadFile(fs, q)
  {
    if CanWrite(fs, p) then Some(fs.(files := fs.files[p := data])) else None
  }

  /** `mkdir(p)` without `recursive`: fails when the path exists or its parent
      does not. The outcome is the new disk and whether the call failed. */
  function Mkdir(fs: Fs, p: Path): (r: (Fs, bool))
    ensures !r.1 <==> |p| > 0 && Parent(p) in fs.dirs && !Exists(fs, p) && p !in fs.locked
    ensures r.0.files == fs.files && r.0.locked == fs.locked
    ensures r.0.dirs == if r.1 then fs.dirs else fs.dirs + {p}
    ensures forall q :: ReadFile(r.0, q) == ReadFile(fs, q)
  {
    if |p| > 0 && Parent(p) in fs.dirs && !Exists(fs, p) && p !in fs.locked then
      (fs.(dirs := fs.dirs + {p}), false)
    else (fs, true)
  }

  /** A directory is there after `mkdir` whether or not the call failed,
      provided it could be created or already existed as a directory: the
      reason the program may ignore the error. */
  lemma MkdirEnsuresDir(fs: Fs, p: Path)
    requires |p| > 0 && Parent(p) in fs.dirs && p !in fs.files
    requires p in fs.dirs || p !in fs.locked
    ensures p in Mkdir(fs, p).0.dirs
  {
  }
}
