/**
 * The `Migration` trait and its implementations: the SQL-file migration,
 * a migration defined in code that relies on the trait's default
 * `file_path` and `metadata`, and the forwarding implementations for
 * `Box<Migration>` and `&Migration`.
 */
module Migrations {
  import opened Results
  import opened Paths
  import opened Errors
  import opened FileSystem
  import opened Metadata
  import opened Connections
  import opened ScriptRunner

  const UpScript := "up.sql"
  const DownScript := "down.sql"

  datatype Migration =
      /** `SqlFileMigration`: a directory holding `up.sql` and `down.sql`. */
    | SqlFileMigration(directory: Path, version: string, metadata: Option<TomlMetadata>)
      /** A migration written in code: it overrides only `version`, `run` and `revert`. */
    | CodeMigration(version: string, upSql: string, downSql: string)
      /** `Box<Migration>`. */
    | Boxed(inner: Migration)
      /** `&Migration`. */
    | Borrowed(inner: Migration)
  {
    /** `Migration::version`. */
    function Version(): string
    {
      match this
      case SqlFileMigration(_, version, _) => version
      case CodeMigration(version, _, _) => version
      case Boxed(m) => m.Version()
      case Borrowed(m) => m.Version()
    }

    /** `Migration::file_path`; the trait's default is `None`. */
    function FilePath(): Option<Path>
    {
      match this
      case SqlFileMigration(directory, _, _) => Some(directory)
      case CodeMigration(_, _, _) => None
      case Boxed(m) => m.FilePath()
      case Borrowed(m) => m.FilePath()
    }

    /** `Migration::metadata`; the trait's default is `None`. */
    function Metadata(): Option<TomlMetadata>
    {
      match this
      case SqlFileMigration(_, _, metadata) => metadata
      case CodeMigration(_, _, _) => None
      case Boxed(m) => m.Metadata()
      case Borrowed(m) => m.Metadata()
    }

    /** What `Migration::run` does against a connection answering `rejection`. */
    function RunTrace(fs: Fs, rejection: Option<string>): RunTrace
    {
      match this
      case SqlFileMigration(directory, _, _) => ScriptRun(ReadFile(fs, Join(directory, UpScript)), rejection)
      case CodeMigration(_, upSql, _) => BatchTrace(upSql, rejection)
      case Boxed(m) => m.RunTrace(fs, rejection)
      case Borrowed(m) => m.RunTrace(fs, rejection)
    }

    /** What `Migration::revert` does against a connection answering `rejection`. */
    function RevertTrace(fs: Fs, rejection: Option<string>): RunTrace
    {
      match this
      case SqlFileMigration(directory, _, _) => ScriptRun(ReadFile(fs, Join(directory, DownScript)), rejection)
      case CodeMigration(_, _, downSql) => BatchTrace(downSql, rejection)
      case Boxed(m) => m.RevertTrace(fs, rejection)
      case Borrowed(m) => m.RevertTrace(fs, rejection)
    }

    /** The migration behind every `Box` and `&`. */
    function Unwrapped(): (r: Migration)
      ensures !r.Boxed? && !r.Borrowed?
    {
      match this
      case Boxed(m) => m.Unwrapped()
      case Borrowed(m) => m.Unwrapped()
      case _ => this
    }
  }

  /** `Migration::run`. */
  method Run(m: Migration, fs: Fs, conn: RecordingConnection) returns (r: Result<(), RunMigrationsError>)
    modifies conn
    ensures r == m.RunTrace(fs, conn.rejection).result
    ensures conn.batches == old(conn.batches) + m.RunTrace(fs, conn.rejection).sent
  {
    match m
    case SqlFileMigration(directory, _, _) =>
      r := RunSqlFromFile(conn, fs, Join(directory, UpScript));
    case CodeMigration(_, upSql, _) =>
      var answer := conn.BatchExecute(upSql);
      r := if answer.Err? then Err(QueryError(answer.error)) else Ok(());
    case Boxed(inner) =>
      r := Run(inner, fs, conn);
    case Borrowed(inner) =>
      r := Run(inner, fs, conn);
  }

  /** `Migration::revert`. */
  method Revert(m: Migration, fs: Fs, conn: RecordingConnection) returns (r: Result<(), RunMigrationsError>)
    modifies conn
    ensures r == m.RevertTrace(fs, conn.rejection).result
    ensures conn.batches == old(conn.batches) + m.RevertTrace(fs, conn.rejection).sent
  {
    match m
    case SqlFileMigration(directory, _, _) =>
      r := RunSqlFromFile(conn, fs, Join(directory, DownScript));
    case CodeMigration(_, _, downSql) =>
      var answer := conn.BatchExecute(downSql);
      r := if answer.Err? then Err(QueryError(answer.error)) else Ok(());
    case Boxed(inner) =>
      r := Revert(inner, fs, conn);
    case Borrowed(inner) =>
      r := Revert(inner, fs, conn);
  }

  /** A `Box` or a `&` answers all five trait methods exactly as the migration inside it. */
  lemma WrapperForwards(m: Migration, fs: Fs, rejection: Option<string>)
    requires m.Boxed? || m.Borrowed?
    ensures m.Version() == m.inner.Version()
    ensures m.FilePath() == m.inner.FilePath()
    ensures m.Metadata() == m.inner.Metadata()
    ensures m.RunTrace(fs, rejection) == m.inner.RunTrace(fs, rejection)
    ensures m.RevertTrace(fs, rejection) == m.inner.RevertTrace(fs, rejection)
  {
  }

  /** Any nesting of `Box` and `&` is transparent: every method answers as the migration inside. */
  lemma {:induction false} WrappersAreTransparent(m: Migration, fs: Fs, rejection: Option<string>)
    ensures m.Version() == m.Unwrapped().Version()
    ensures m.FilePath() == m.Unwrapped().FilePath()
    ensures m.Metadata() == m.Unwrapped().Metadata()
    ensures m.RunTrace(fs, rejection) == m.Unwrapped().RunTrace(fs, rejection)
    ensures m.RevertTrace(fs, rejection) == m.Unwrapped().RevertTrace(fs, rejection)
  {
    match m
    case Boxed(inner) => WrappersAreTransparent(inner, fs, rejection);
    case Borrowed(inner) => WrappersAreTransparent(inner, fs, rejection);
    case _ =>
  }

  /** A migration that does not override `file_path` and `metadata` has neither, however it is wrapped. */
  lemma TraitDefaults(m: Migration)
    requires m.Unwrapped().CodeMigration?
    ensures m.FilePath() == None
    ensures m.Metadata() == None
  {
    WrappersAreTransparent(m, map[], None);
  }

  /**
   * A SQL-file migration, however it is wrapped, runs `up.sql` and reverts
   * with `down.sql` from its own directory, through `run_sql_from_file`.
   */
  lemma SqlFileScripts(m: Migration, fs: Fs, rejection: Option<string>)
    requires m.Unwrapped().SqlFileMigration?
    ensures m.FilePath() == Some(m.Unwrapped().directory)
    ensures m.RunTrace(fs, rejection) == ScriptRun(ReadFile(fs, Join(m.Unwrapped().directory, "up.sql")), rejection)
    ensures m.RevertTrace(fs, rejection) == ScriptRun(ReadFile(fs, Join(m.Unwrapped().directory, "down.sql")), rejection)
  {
    WrappersAreTransparent(m, fs, rejection);
  }
}
