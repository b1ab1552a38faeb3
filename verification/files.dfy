/**
 * The disk as the readers see it. `os.path.isdir` becomes membership in a set
 * of directories; `os.walk(path)` becomes the file names it reports below
 * `path` (every level together, in the order the walk yields them); and
 * `os.path.join` is the POSIX join.
 */
module Files {

  datatype FileSystem = FileSystem(dirs: set<string>, walk: map<string, seq<string>>)

  /** `os.path.isdir(path)` */
  predicate IsDir(fs: FileSystem, path: string)
  {
    path in fs.dirs
  }

  /** The file names `os.walk(path)` yields; nothing for a path that is not a directory. */
  function Walk(fs: FileSystem, path: string): seq<string>
  {
    if IsDir(fs, path) && path in fs.walk then fs.walk[path] else []
  }

  /** `os.path.join(a, b)` for POSIX paths. */
  function Join(a: string, b: string): string
  {
    if b != [] && b[0] == '/' then b
    else if a == [] || a[|a| - 1] == '/' then a + b
    else a + "/" + b
  }

  /**
   * The joined path ends with `b`; unless `b` is absolute it begins with `a`,
   * with exactly one separator between them when `a` does not end in one, and
   * none added when `a` is empty or already ends in one.
   */
  lemma JoinParts(a: string, b: string)
    ensures var r := Join(a, b);
            && |r| >= |b| && r[|r| - |b|..] == b
            && ((b == [] || b[0] != '/') ==> |r| >= |a| && r[..|a|] == a)
            && ((b == [] || b[0] != '/') && a != [] && a[|a| - 1] != '/' ==> r == a + "/" + b)
            && ((b == [] || b[0] != '/') && (a == [] || a[|a| - 1] == '/') ==> r == a + b)
            && (b != [] && b[0] == '/' ==> r == b)
  {
  }
}
