/**
 * The error kinds the migration code produces (the variants of
 * `MigrationError` and `RunMigrationsError` that it uses).
 */
module Errors {
  import opened Paths

  /** The kinds of `std::io::Error` a filesystem read can end in. */
  datatype IoErrorKind = NotFound | NotADirectory | IsADirectory | PermissionDenied | Other(description: string)

  datatype MigrationError =
    | UnknownMigrationFormat(path: Path)
    | IoError(kind: IoErrorKind)
    | InvalidMetadata(cause: string)

  datatype RunMigrationsError =
    | MigrationError(error: MigrationError)
    | QueryError(cause: string)
    | EmptyMigration
}
