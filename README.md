# Diesel's file-based SQL migrations, modelled in Dafny

This project models the part of diesel that turns a directory into a
migration and runs it. A migration directory holds `up.sql`, `down.sql`
and, optionally, `metadata.toml`. Its version is taken from the directory's
name. Applying it hands the whole of `up.sql` to the connection as one
batch, and reverting it does the same with `down.sql`. An empty script is
refused with `EmptyMigration` before the connection is touched.

The filesystem is a value: a map from path to a node. A node is either a
directory listing, in which any entry may fail to read, or a file's text,
or the I/O error that opening or reading the file ends in. The TOML decoder
(`toml::from_slice`) and serde's `try_into` are parameters of function type.
The connection is `Connections.RecordingConnection`. It is a class that
records every batch it is given and answers each one with a fixed outcome.

Modules, leaves first:

- `Results`: `Option` and `Result`.
- `Text`: the standard string operations the code relies on. These are
  `split`, joining with a separator, `replace(c, "")` and `starts_with`.
  Splitting and joining are proved to be inverse to each other.
- `Paths`: paths as component sequences, with `file_name`, `join` and the
  text form.
- `Errors`: the variants of `MigrationError` and `RunMigrationsError` that
  the code uses.
- `FileSystem`: `read_dir`, open-and-read and `exists` over the map.
- `Connections`: the recording connection.
- `Metadata`: `TomlMetadata` and `DummyMetadata` (diesel/src/migration/mod.rs
  and migration.rs).
- `ScriptRunner`: `run_sql_from_file`, written imperatively against the
  connection and specified by the function `ScriptRun`.
- `Migrations`: the `Migration` trait (diesel/src/migration/mod.rs), modelled
  as a datatype with four variants:
  - `SqlFileMigration`, the implementation in migration.rs;
  - `CodeMigration`, an implementor that overrides only the required
    methods, so that `file_path` and `metadata` fall back to the trait
    defaults;
  - `Boxed` and `Borrowed`, the `Box<Migration>` and `&Migration`
    forwarding impls.

  `Run` and `Revert` are module-level methods of `Migrations` that take the
  connection as a parameter and modify it. Each is specified by the
  migration's `RunTrace`/`RevertTrace`, which give the result and the
  batches sent.
- `Loader`: `version_from_path`, `file_names`, `valid_sql_migration_directory`,
  `SqlFileMigration::new` and `migration_from`.
- `Display`: the text of `MigrationName` and `MigrationFileName`.

migration.rs is split across `Metadata`, `ScriptRunner`, `Loader` and
`Display`. This is because the trait's dispatch (`Migrations`) has to sit
between the part that runs scripts and the part that builds migrations.

Two behaviours of the code are easy to miss:

- A directory whose listing fails is reported as not valid (`false`), not
  as a filesystem error. This comes from `unwrap_or(false)` at
  diesel_migrations/migrations_internals/src/migration.rs:100.
- `version_from_path` never reports `UnknownMigrationFormat`, because a
  split always yields a first piece. A name starting with `_` therefore
  gives the empty version (`Loader.EmptyVersionAccepted`).

## Model

| member | source | states |
|---|---|---|
| `Text.Split` | diesel_migrations/migrations_internals/src/migration.rs:129-130 | `split('_')` always yields at least one piece, so `nth(0)` always finds one; no piece contains the separator |
| `Text.JoinSplit` | diesel_migrations/migrations_internals/src/migration.rs:129 | the pieces of `split('_')`, joined back with `_`, give the original name, so the first piece is a prefix of it |
| `Text.SplitJoin` | diesel_migrations/migrations_internals/src/migration.rs:129 | the other half of the round trip: splitting pieces joined with `_` gives the pieces back when none of them holds `_` |
| `Text.RemoveAll` | diesel_migrations/migrations_internals/src/migration.rs:131 | `replace('-', "")` leaves exactly the characters of the input other than `-`, and leaves a text without `-` unchanged |
| `Text.RemoveAllCounts` | diesel_migrations/migrations_internals/src/migration.rs:131 | `replace('-', "")` keeps every other character with its number of occurrences |
| `Text.RemoveAllAppend` | diesel_migrations/migrations_internals/src/migration.rs:131 | `replace('-', "")` works piecewise, so the remaining characters keep their order |
| `Loader.VersionFromPath` | diesel_migrations/migrations_internals/src/migration.rs:124-133 | for a path with a final component the version is always `Ok` (the error branch is unreachable) and contains neither `_` nor `-` |
| `Loader.VersionIsFirstSegment` | diesel_migrations/migrations_internals/src/migration.rs:125-133 | the version is the final component up to (not including) its first `_`, or all of it when there is none, with every `-` removed |
| `Loader.EmptyVersionAccepted` | diesel_migrations/migrations_internals/src/migration.rs:129-132 | a name beginning with `_` yields `Ok("")`, not `UnknownMigrationFormat` |
| `Loader.VersionOfPlainNumber` | diesel_migrations/migrations_internals/src/migration.rs:291-296 | `migrations/12345` has version `12345` |
| `Loader.VersionOfSuffixedNumber` | diesel_migrations/migrations_internals/src/migration.rs:298-303 | `migrations/54321_create_stuff` has version `54321` |
| `Loader.VersionOfWordFirst` | diesel_migrations/migrations_internals/src/migration.rs:305-310 | `migrations/create_stuff_12345` has version `create` |
| `Loader.CollectNames` | diesel_migrations/migrations_internals/src/migration.rs:103-122 | the listing is `Ok` iff every entry reads; its names are exactly the entries' names that do not start with `.`; otherwise the error is the first failing entry's, as `IoError`; `Loader.FileNames` applies it to the listing of a path, turning a failed `read_dir` into `IoError` |
| `Loader.ValidSqlMigrationDirectory` | diesel_migrations/migrations_internals/src/migration.rs:97-101 | true iff the path is a directory, every entry of its listing reads, and the listing holds both `up.sql` and `down.sql`; extra names and dot-prefixed names make no difference, and a failed listing gives false |
| `Loader.ValidatorExamples` | diesel_migrations/migrations_internals/src/migration.rs:222-289 | a plain file, an empty directory and a directory with only `up.sql` are not valid; `up.sql` plus `down.sql`, with or without `foo` or `.foo`, is valid |
| `Loader.NewSqlFileMigration` | diesel_migrations/migrations_internals/src/migration.rs:141-161 | the result keeps the directory and version; metadata is `None` iff `metadata.toml` does not exist; when it exists, a read failure gives `IoError`, a decode failure gives `InvalidMetadata`, and otherwise the decoded document is kept |
| `Loader.MigrationFrom` | diesel_migrations/migrations_internals/src/migration.rs:81-95 | `Err(UnknownMigrationFormat(path))` exactly when the directory is not valid; on success the version is `version_from_path(path)`, `file_path` is `Some(path)`, and metadata is `None` iff `metadata.toml` is absent; a valid directory without metadata always loads; for a valid directory holding `metadata.toml`, a read failure gives `IoError`, a decode failure gives `InvalidMetadata`, and otherwise the migration carries the decoded document, as `SqlFileMigration::new` hands back |
| `Loader.LoadedMetadataLookup` | diesel_migrations/migrations_internals/src/migration.rs:144-150 | loading a valid directory whose `metadata.toml` decodes to a table gives a migration carrying that table; looking up a key gives `None` if it is absent, `Some(Ok(v))` if it converts, and `Some(Err(InvalidMetadata))` if it does not |
| `Metadata.TomlMetadata.Get` | diesel_migrations/migrations_internals/src/migration.rs:202-209 | `None` iff the document has no such key; otherwise `Some(Ok(v))` when the conversion gives `v`, and `Some(Err(InvalidMetadata(e)))` when it fails with `e` |
| `Metadata.DummyMetadata.Get` | diesel/src/migration/mod.rs:111-118 | returns `None` for every key |
| `ScriptRunner.BatchTrace` | diesel_migrations/migrations_internals/src/migration.rs:195-196 | exactly one batch, the given text, is sent; the result is `Ok` iff the connection accepts it, and otherwise a `QueryError` carrying the connection's failure |
| `ScriptRunner.ScriptRun` | diesel_migrations/migrations_internals/src/migration.rs:186-197 | a batch is sent iff the script reads and is non-empty, and then it is the full text, once; the result is `EmptyMigration` iff the script is empty; a read failure is an `IoError`; the run succeeds iff the script is non-empty and the connection accepts it |
| `ScriptRunner.RunSqlFromFile` | diesel_migrations/migrations_internals/src/migration.rs:186-197 | the result and the batches appended to the connection are those of `ScriptRun` on the file's contents |
| `Migrations.Run` | diesel_migrations/migrations_internals/src/migration.rs:173-175 | the result and the batches appended to the connection are those of the migration's `RunTrace` |
| `Migrations.Revert` | diesel_migrations/migrations_internals/src/migration.rs:177-179 | the result and the batches appended to the connection are those of the migration's `RevertTrace` |
| `Migrations.SqlFileScripts` | diesel_migrations/migrations_internals/src/migration.rs:163-179 | a SQL-file migration, however wrapped, has `file_path` equal to its directory; `run` runs `<dir>/up.sql` and `revert` runs `<dir>/down.sql` through `run_sql_from_file` |
| `Migrations.TraitDefaults` | diesel/src/migration/mod.rs:26-34 | `Migrations.Migration.FilePath` and `Migrations.Migration.Metadata` keep the trait default: a migration that does not override `file_path` and `metadata` returns `None` from both, however it is wrapped |
| `Migrations.WrapperForwards` | diesel/src/migration/mod.rs:37-85 | for the trait methods `Migrations.Migration.Version`, `FilePath`, `Metadata`, `RunTrace` and `RevertTrace`: `Box<Migration>` and `&Migration` answer `version`, `run`, `revert`, `file_path` and `metadata` exactly as the migration inside |
| `Migrations.WrappersAreTransparent` | diesel/src/migration/mod.rs:37-85 | any nesting of `Box` and `&` answers all five methods exactly as the innermost migration |
| `Display.MigrationFileName` | diesel_migrations/migrations_internals/src/migration.rs:67-79 | fails iff the migration has no file path; otherwise the text is the directory, `/`, then the file name (just the file name for an empty directory path) |
| `Display.CodeMigrationName` | diesel_migrations/migrations_internals/src/migration.rs:29-45 | `Display.MigrationName`: a migration without a file path is named by its version, and its file name cannot be displayed |
| `Display.LoadedMigrationDisplay` | diesel_migrations/migrations_internals/src/migration.rs:33-44 | `Display.MigrationName` of a loaded migration is its directory's final component; its version is `version_from_path` of that name; its `up.sql`/`down.sql` display paths are exactly the files that `run`/`revert` read |

## Left out

- The `barrel` hook in `migration_from` (migration.rs:83-87). It is a foreign crate behind a feature flag.
- Real filesystem access. `read_dir`, `File::open`, `read_to_end`, `read_to_string` and `exists` are functions over the filesystem map. `exists` is membership in the map, so a path whose metadata cannot be read still counts as existing.
- File contents are text, not bytes. The model does not capture `read_to_string` failing on non-UTF-8 data, or the decoder receiving raw bytes.
- The panic on a file name that is not valid UTF-8 (migration.rs:111). Names are strings, so it cannot occur.
- The panic on a path without a final component (migration.rs:127). It is the precondition of `Loader.VersionFromPath` and, for valid directories, of `Loader.MigrationFrom`. `to_string_lossy` is the identity here.
- The `"Invalid utf8 in filename"` fallback of `MigrationFileName` (migration.rs:76). It cannot occur for paths made of strings.
- Paths are normal relative component lists. Absolute paths, `.` and `..` components, and `join` with a name that contains `/` or is absolute are not modelled.
- The TOML parser and serde conversion are function parameters (`Metadata.Decoder`, `tryInto`). TOML floats and datetimes are not among the modelled values.
- The trait is generic over its metadata type `M`. The model fixes `M` to `TomlMetadata`, the type `migration_from` returns. `DummyMetadata` is modelled on its own.
- What a hand-written migration's `run` and `revert` do is up to its author. `CodeMigration` stands in for one: each direction hands one fixed batch to the connection.
- `batch_execute`'s database semantics and transactions. The recording connection accepts every batch, or rejects every batch with the same cause.
- `fmt::Formatter` plumbing. The display helpers are functions returning the text, or `FmtError`.
- The errors module is not part of this model. Only the variants this code produces are modelled.
