/**
 * The display helpers `MigrationName` and `MigrationFileName`: a
 * migration's name, and the path of a file inside its directory.
 */
module Display {
  import opened Results
  import opened Text
  import opened Paths
  import opened FileSystem
  import opened Metadata
  import opened Migrations
  import opened Loader

  /** `fmt::Error`. */
  datatype FmtError = FmtError

  /** `MigrationName`'s text: the final component of the file path when there is one, else the version. */
  function MigrationName(m: Migration): string
  {
    match m.FilePath()
    case Some(path) =>
      (match FileName(path)
       case Some(name) => name
       case None => m.Version())
    case None => m.Version()
  }

  /**
   * `MigrationFileName`'s text: the migration's directory joined with
   * `sqlFile`. A migration without a file path cannot be displayed.
   */
  function MigrationFileName(m: Migration, sqlFile: string): (r: Result<string, FmtError>)
    ensures r.Err? <==> m.FilePath().None?
    ensures r.Ok? ==> r.value == if m.FilePath().value.components == [] then sqlFile
                                 else Display(m.FilePath().value) + "/" + sqlFile
  {
    match m.FilePath()
    case None => Err(FmtError)
    case Some(directory) =>
      DisplayJoin(directory, sqlFile);
      Ok(Display(Join(directory, sqlFile)))
  }

  /** A migration without a file path is shown by its version, however it is wrapped. */
  lemma CodeMigrationName(m: Migration)
    requires m.Unwrapped().CodeMigration?
    ensures MigrationName(m) == m.Unwrapped().version
    ensures MigrationFileName(m, UpScript) == Err(FmtError)
  {
    WrappersAreTransparent(m, map[], None);
  }

  /**
   * A migration loaded from `path` is shown by the directory's name; its
   * version is that name up to the first `_`, without hyphens; and its
   * `up.sql` and `down.sql` are the files that run and revert read.
   */
  lemma LoadedMigrationDisplay(fs: Fs, decode: Decoder, path: Path, rejection: Option<string>)
    requires ValidSqlMigrationDirectory(fs, path) ==> FileName(path).Some?
    requires MigrationFrom(fs, decode, path).Ok?
    ensures var m := MigrationFrom(fs, decode, path).value;
            && MigrationName(m) == FileName(path).value
            && m.Version() == VersionFromPath(Path([MigrationName(m)])).value
            && MigrationFileName(m, UpScript) == Ok(Display(Join(path, UpScript)))
            && MigrationFileName(m, DownScript) == Ok(Display(Join(path, DownScript)))
            && m.RunTrace(fs, rejection) == ScriptRunner.ScriptRun(ReadFile(fs, Join(path, UpScript)), rejection)
            && m.RevertTrace(fs, rejection) == ScriptRunner.ScriptRun(ReadFile(fs, Join(path, DownScript)), rejection)
  {
    var m := MigrationFrom(fs, decode, path).value;
    SqlFileScripts(m, fs, rejection);
    WrappersAreTransparent(m, fs, rejection);
    DisplayJoin(path, UpScript);
    DisplayJoin(path, DownScript);
  }
}
