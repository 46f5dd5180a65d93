/** The file system as the typing program sees it through `os.listdir`,
    `os.path.isfile`, `os.path.join` and `open`. The file system is a value
    handed to each operation: which directories list which names, and which
    paths are regular files with which text. */
module Os {
  import opened PyBuiltins

  /** `dirs` maps a directory path to the names `os.listdir` returns for it,
      in the order it returns them; `files` maps the path of each regular
      file to its text after decoding and universal-newline translation. */
  datatype FileSystem = FileSystem(dirs: map<string, seq<string>>, files: map<string, string>)

  /** `os.path.isfile(path)`. */
  predicate IsFile(fs: FileSystem, path: string) {
    path in fs.files
  }

  /** `os.listdir(folder)`: the names a directory lists; a path that is a
      regular file raises NotADirectoryError and any other path
      FileNotFoundError. */
  function ListDir(fs: FileSystem, folder: string): (r: Result<seq<string>>)
    ensures r.Ok? <==> folder in fs.dirs
    ensures r.Ok? ==> r.value == fs.dirs[folder]
    ensures folder !in fs.dirs && IsFile(fs, folder) ==> r == Err(NotADirectoryError)
    ensures folder !in fs.dirs && !IsFile(fs, folder) ==> r == Err(FileNotFoundError)
  {
    if folder in fs.dirs then Ok(fs.dirs[folder])
    else if IsFile(fs, folder) then Err(NotADirectoryError)
    else Err(FileNotFoundError)
  }

  /** POSIX `os.path.join(a, b)` for two components: an absolute `b` replaces
      `a`; otherwise a separator is inserted unless `a` is empty or already
      ends in one. */
  function Join(a: string, b: string): (p: string)
    ensures b != [] && b[0] == '/' ==> p == b
    ensures (b == [] || b[0] != '/') ==> |a| + |b| <= |p| <= |a| + |b| + 1
    ensures (b == [] || b[0] != '/') ==> p[|p| - |b|..] == b
    ensures (b == [] || b[0] != '/') && a != [] ==> p[..|a|] == a
    ensures (b == [] || b[0] != '/') ==> (|p| == |a| + |b| + 1 <==> a != [] && a[|a| - 1] != '/')
    ensures (b == [] || b[0] != '/') && |p| == |a| + |b| + 1 ==> p[|a|] == '/'
  {
    if b != [] && b[0] == '/' then b
    else if a == [] || a[|a| - 1] == '/' then a + b
    else a + "/" + b
  }
}
