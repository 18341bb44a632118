/**
 * The working directory the scripts read and write, as a value: each path
 * names a file whose content either parsed as JSON, failed to parse or read,
 * or is plain text (an HTML page), and a set of paths are directories.
 * Directory listings (`glob`, `os.listdir`) come with an order the operating
 * system chooses, so operations that list a directory take the listing as a
 * parameter.
 */
module Files {
  import opened Wrappers
  import opened PyJson

  datatype File =
    | JsonFile(value: Json)   // a file `json.load` parses to `value`
    | Unreadable              // a file whose reading or parsing raises
    | TextFile(text: string)  // a page written as text

  datatype FileSystem = FileSystem(files: map<string, File>, dirs: set<string>)

  /** `os.path.exists(path)`. */
  predicate Exists(fs: FileSystem, path: string)
  {
    path in fs.files || path in fs.dirs
  }

  /** `json.load(open(path))`; `None` when opening, reading or parsing raises. */
  function LoadJson(fs: FileSystem, path: string): (r: Option<Json>)
    ensures r.Some? <==> path in fs.files && fs.files[path].JsonFile?
    ensures r.Some? ==> r.value == fs.files[path].value
  {
    if path in fs.files && fs.files[path].JsonFile? then Some(fs.files[path].value) else None
  }

  /** The directory tree after writing `f` at `path` (create or truncate). */
  function Write(fs: FileSystem, path: string, f: File): (fs': FileSystem)
    ensures fs'.files.Keys == fs.files.Keys + {path} && fs'.files[path] == f
    ensures forall p :: p in fs.files && p != path ==> fs'.files[p] == fs.files[p]
    ensures fs'.dirs == fs.dirs
  {
    fs.(files := fs.files[path := f])
  }

  /** Opening `path` for writing succeeds: its directory `dir` exists as a directory and `path` is not one. */
  predicate CanCreate(fs: FileSystem, dir: string, path: string)
  {
    dir in fs.dirs && dir !in fs.files && path !in fs.dirs
  }

  /** `os.makedirs(dir)` when `os.path.exists(dir)` is false. */
  function EnsureDir(fs: FileSystem, dir: string): (fs': FileSystem)
    ensures fs'.files == fs.files
    ensures Exists(fs, dir) ==> fs' == fs
    ensures !Exists(fs, dir) ==> fs'.dirs == fs.dirs + {dir}
  {
    if Exists(fs, dir) then fs else fs.(dirs := fs.dirs + {dir})
  }
}
