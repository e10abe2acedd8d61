/** `run_sql_from_file`: reads a script and hands it to the connection as one batch. */
module ScriptRunner {
  import opened Results
  import opened Paths
  import opened Errors
  import opened FileSystem
  import opened Connections

  /** What a run ends in, and the batches it handed to the connection. */
  datatype RunTrace = RunTrace(result: Result<(), RunMigrationsError>, sent: seq<string>)

  /** One batch handed to a connection answering `rejection`; a rejection becomes a `QueryError`. */
  function BatchTrace(sql: string, rejection: Option<string>): (t: RunTrace)
    ensures t.sent == [sql]
    ensures t.result.Ok? <==> rejection.None?
    ensures t.result.Err? ==> t.result.error == QueryError(rejection.value)
  {
    match BatchAnswer(rejection)
    case Ok(_) => RunTrace(Ok(()), [sql])
    case Err(cause) => RunTrace(Err(QueryError(cause)), [sql])
  }

  /**
   * What running a script does, given the outcome of reading it: an
   * unreadable script is an I/O error, an empty one is `EmptyMigration`,
   * and only a non-empty one reaches the connection, once and in full.
   */
  function ScriptRun(script: Result<string, IoErrorKind>, rejection: Option<string>): (t: RunTrace)
    ensures t.sent != [] <==> script.Ok? && script.value != []
    ensures t.sent != [] ==> t.sent == [script.value] && t == BatchTrace(script.value, rejection)
    ensures t.result == Err(EmptyMigration) <==> script == Ok([])
    ensures script.Err? ==> t.result == Err(MigrationError(IoError(script.error)))
    ensures t.result.Ok? <==> script.Ok? && script.value != [] && rejection.None?
  {
    match script
    case Err(kind) => RunTrace(Err(MigrationError(IoError(kind))), [])
    case Ok(sql) =>
      if |sql| == 0 then RunTrace(Err(EmptyMigration), [])
      else BatchTrace(sql, rejection)
  }

  /** `run_sql_from_file(conn, path)`. */
  method RunSqlFromFile(conn: RecordingConnection, fs: Fs, path: Path) returns (r: Result<(), RunMigrationsError>)
    modifies conn
    ensures r == ScriptRun(ReadFile(fs, path), conn.rejection).result
    ensures conn.batches == old(conn.batches) + ScriptRun(ReadFile(fs, path), conn.rejection).sent
  {
    var sql := "";
    var read := ReadFile(fs, path);
    if read.Err? {
      return Err(MigrationError(IoError(read.error)));
    }
    sql := read.value;
    if |sql| == 0 {
      return Err(EmptyMigration);
    }
    var answer := conn.BatchExecute(sql);
    if answer.Err? {
      return Err(QueryError(answer.error));
    }
    return Ok(());
  }
}
