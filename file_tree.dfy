/**
  The sysfs tree the reader observes, fixed at one point in time, and the
  three operating-system calls the reader makes on it: `os.Stat`,
  `ioutil.ReadFile` and `ioutil.ReadDir`.
 */
module FileTree {
  import opened Wrappers

  /** A path as its sequence of name components; `path.Join` is concatenation. */
  type Path = seq<string>

  /**
    What a path names: a regular file and its content, a directory and its
    listing (in the order the tree gives it), or an entry on which every
    operation fails with the given error number (permission denied, I/O error).
    A path that is not a key of the tree does not exist.
   */
  datatype Entry = File(content: string) | Dir(names: seq<string>) | Failing(code: nat)

  type Tree = map<Path, Entry>

  datatype Errno = ENOENT | EISDIR | ENOTDIR | Errno(code: nat)

  /** `*os.PathError`: the operation, the path and the cause. */
  datatype PathError = PathError(op: string, path: Path, errno: Errno)

  /** `os.IsNotExist`. */
  predicate IsNotExist(e: PathError) {
    e.errno == ENOENT
  }

  /** `os.Stat`, keeping only whether it failed and why. */
  function Stat(fs: Tree, p: Path): Option<PathError> {
    if p !in fs then Some(PathError("stat", p, ENOENT))
    else match fs[p]
      case Failing(code) => Some(PathError("stat", p, Errno(code)))
      case _ => None
  }

  /** `ioutil.ReadFile`: the content of a regular file; nothing and an error otherwise. */
  function ReadFile(fs: Tree, p: Path): (string, Option<PathError>) {
    if p !in fs then ("", Some(PathError("open", p, ENOENT)))
    else match fs[p]
      case File(content) => (content, None)
      case Dir(_) => ("", Some(PathError("read", p, EISDIR)))
      case Failing(code) => ("", Some(PathError("open", p, Errno(code))))
  }

  /** `ioutil.ReadDir`, keeping the names of the entries. */
  function ReadDir(fs: Tree, p: Path): Result<seq<string>, PathError> {
    if p !in fs then Failure(PathError("open", p, ENOENT))
    else match fs[p]
      case Dir(names) => Success(names)
      case File(_) => Failure(PathError("readdirent", p, ENOTDIR))
      case Failing(code) => Failure(PathError("open", p, Errno(code)))
  }

  /** `filepath.Base`: the last component, or "." for the empty path. */
  function Base(p: Path): string {
    if p == [] then "." else p[|p| - 1]
  }
}
