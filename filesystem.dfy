/**
 * The filesystem as a value: what each path holds. A directory holds its
 * listing, in which any entry may fail to read; a file holds its text, or
 * the error that opening or reading it ends in.
 */
module FileSystem {
  import opened Results
  import opened Paths
  import opened Errors

  datatype Node =
    | Directory(entries: seq<Result<string, IoErrorKind>>)
    | File(contents: Result<string, IoErrorKind>)

  type Fs = map<Path, Node>

  /** `Path::read_dir`: the listing of a directory. */
  function ReadDir(fs: Fs, p: Path): Result<seq<Result<string, IoErrorKind>>, IoErrorKind>
  {
    if p !in fs then Err(NotFound)
    else match fs[p]
      case Directory(entries) => Ok(entries)
      case File(_) => Err(NotADirectory)
  }

  /** `File::open` followed by reading the whole file. */
  function ReadFile(fs: Fs, p: Path): Result<string, IoErrorKind>
  {
    if p !in fs then Err(NotFound)
    else match fs[p]
      case File(contents) => contents
      case Directory(_) => Err(IsADirectory)
  }

  /** `Path::exists`. */
  predicate Exists(fs: Fs, p: Path)
  {
    p in fs
  }
}
