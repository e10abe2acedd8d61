/**
 * Loading a SQL-file migration from a directory: the directory check,
 * the version taken from the directory name, and the optional
 * `metadata.toml`.
 */
module Loader {
  import opened Results
  import opened Text
  import opened Paths
  import opened Errors
  import opened FileSystem
  import opened Metadata
  import opened Migrations

  const MetadataFile := "metadata.toml"

  /**
   * `version_from_path`: the final component up to its first `_`, with
   * every `-` removed. `version_from_path` panics on a path without a final
   * component, hence the precondition.
   */
  function VersionFromPath(path: Path): (r: Result<string, MigrationError>)
    requires FileName(path).Some?
    ensures r.Ok?
    ensures '_' !in r.value && '-' !in r.value
  {
    var segments := Split(FileName(path).value, '_');
    // `nth(0)` of the split: never empty, since a split yields at least one piece
    if |segments| == 0 then Err(UnknownMigrationFormat(path))
    else Ok(RemoveAll(segments[0], '-'))
  }

  /**
   * The version is the text before the first `_` of the final component
   * (all of it when it has none), without its hyphens.
   */
  lemma VersionIsFirstSegment(path: Path, prefix: string, rest: string)
    requires FileName(path) == Some(prefix + rest)
    requires '_' !in prefix
    requires rest == [] || rest[0] == '_'
    ensures VersionFromPath(path) == Ok(RemoveAll(prefix, '-'))
  {
    FirstPiece(prefix, rest, '_');
  }

  /** The version of `migrations/12345`, from diesel's tests. */
  lemma VersionOfPlainNumber()
    ensures VersionFromPath(Path(["migrations", "12345"])) == Ok("12345")
  {
    VersionOfExample("12345", "12345", "");
  }

  /** The version of `migrations/54321_create_stuff`, from diesel's tests. */
  lemma VersionOfSuffixedNumber()
    ensures VersionFromPath(Path(["migrations", "54321_create_stuff"])) == Ok("54321")
  {
    VersionOfExample("54321_create_stuff", "54321", "_create_stuff");
  }

  /** The version of `migrations/create_stuff_12345`, from diesel's tests. */
  lemma VersionOfWordFirst()
    ensures VersionFromPath(Path(["migrations", "create_stuff_12345"])) == Ok("create")
  {
    VersionOfExample("create_stuff_12345", "create", "_stuff_12345");
  }

  /**
   * A directory name starting with `_` yields the empty version: the
   * `UnknownMigrationFormat` branch of `version_from_path` never rejects it.
   */
  lemma EmptyVersionAccepted(path: Path, rest: string)
    requires FileName(path) == Some("_" + rest)
    ensures VersionFromPath(path) == Ok("")
  {
    assert "" + ("_" + rest) == "_" + rest;
    VersionIsFirstSegment(path, "", "_" + rest);
  }

  lemma VersionOfExample(name: string, prefix: string, rest: string)
    requires name == prefix + rest
    requires '_' !in prefix && '-' !in prefix
    requires rest == [] || rest[0] == '_'
    ensures VersionFromPath(Path(["migrations", name])) == Ok(prefix)
  {
    VersionIsFirstSegment(Path(["migrations", name]), prefix, rest);
  }

  /**
   * The names of a listing, without those starting with `.`; the first
   * entry that fails to read fails the whole listing.
   */
  function CollectNames(entries: seq<Result<string, IoErrorKind>>): (r: Result<seq<string>, MigrationError>)
    ensures r.Ok? <==> forall i :: 0 <= i < |entries| ==> entries[i].Ok?
    ensures r.Ok? ==> forall n :: n in r.value <==> Ok(n) in entries && !StartsWith(n, '.')
    ensures r.Err? ==> r.error.IoError? && exists i :: 0 <= i < |entries| && entries[i] == Err(r.error.kind)
                                                    && forall j :: 0 <= j < i ==> entries[j].Ok?
  {
    if entries == [] then Ok([])
    else
      match entries[0]
      case Err(kind) => Err(IoError(kind))
      case Ok(name) =>
        var rest := CollectNames(entries[1..]);
        if rest.Err? then rest
        else if StartsWith(name, '.') then rest
        else Ok([name] + rest.value)
  }

  /** `file_names`: the names in a directory, except those starting with `.`. */
  function FileNames(fs: Fs, path: Path): Result<seq<string>, MigrationError>
  {
    match ReadDir(fs, path)
    case Err(kind) => Err(IoError(kind))
    case Ok(entries) => CollectNames(entries)
  }

  /**
   * `valid_sql_migration_directory`: the directory can be listed and holds
   * both `up.sql` and `down.sql`. Other names, and names starting with
   * `.`, make no difference; a listing that fails gives false.
   */
  function ValidSqlMigrationDirectory(fs: Fs, path: Path): (r: bool)
    ensures r <==> path in fs && fs[path].Directory?
                   && (forall i :: 0 <= i < |fs[path].entries| ==> fs[path].entries[i].Ok?)
                   && Ok(UpScript) in fs[path].entries && Ok(DownScript) in fs[path].entries
  {
    match FileNames(fs, path)
    case Ok(files) => DownScript in files && UpScript in files
    case Err(_) => false
  }

  /** The directory checks of diesel's tests. */
  lemma ValidatorExamples(dir: Path)
    ensures !ValidSqlMigrationDirectory(map[dir := File(Ok(""))], dir)
    ensures ValidSqlMigrationDirectory(map[dir := Directory([Ok("up.sql"), Ok("down.sql")])], dir)
    ensures ValidSqlMigrationDirectory(map[dir := Directory([Ok("up.sql"), Ok("down.sql"), Ok("foo")])], dir)
    ensures ValidSqlMigrationDirectory(map[dir := Directory([Ok("up.sql"), Ok("down.sql"), Ok(".foo")])], dir)
    ensures !ValidSqlMigrationDirectory(map[dir := Directory([])], dir)
    ensures !ValidSqlMigrationDirectory(map[dir := Directory([Ok("up.sql")])], dir)
  {
  }

  /**
   * `SqlFileMigration::new`: the migration for `directory`, with the
   * decoded `metadata.toml` when there is one.
   */
  function NewSqlFileMigration(fs: Fs, decode: Decoder, directory: Path, version: string): (r: Result<Migration, MigrationError>)
    ensures r.Ok? ==> r.value.SqlFileMigration? && r.value.directory == directory && r.value.version == version
    ensures r.Ok? ==> (r.value.metadata.None? <==> !Exists(fs, Join(directory, MetadataFile)))
    ensures r.Err? ==> Exists(fs, Join(directory, MetadataFile))
    ensures var read := ReadFile(fs, Join(directory, MetadataFile));
            Exists(fs, Join(directory, MetadataFile)) ==>
              if read.Err? then r == Err(IoError(read.error))
              else if decode(read.value).Err? then r == Err(InvalidMetadata(decode(read.value).error))
              else r.Ok? && r.value.metadata == Some(TomlMetadata(decode(read.value).value))
  {
    var metadataPath := Join(directory, MetadataFile);
    if !Exists(fs, metadataPath) then Ok(SqlFileMigration(directory, version, None))
    else
      match ReadFile(fs, metadataPath)
      case Err(kind) => Err(IoError(kind))
      case Ok(buf) =>
        match decode(buf)
        case Err(cause) => Err(InvalidMetadata(cause))
        case Ok(value) => Ok(SqlFileMigration(directory, version, Some(TomlMetadata(value))))
  }

  /**
   * `migration_from`: a boxed SQL-file migration for a valid directory,
   * `UnknownMigrationFormat(path)` for any other path. `migration_from` panics
   * on a valid directory whose path has no final component.
   */
  function MigrationFrom(fs: Fs, decode: Decoder, path: Path): (r: Result<Migration, MigrationError>)
    requires ValidSqlMigrationDirectory(fs, path) ==> FileName(path).Some?
    ensures r == Err(UnknownMigrationFormat(path)) <==> !ValidSqlMigrationDirectory(fs, path)
    ensures r.Ok? ==> ValidSqlMigrationDirectory(fs, path)
    ensures r.Ok? ==> r.value.Version() == VersionFromPath(path).value && r.value.FilePath() == Some(path)
    ensures r.Ok? ==> (r.value.Metadata().None? <==> !Exists(fs, Join(path, MetadataFile)))
    ensures ValidSqlMigrationDirectory(fs, path) && !Exists(fs, Join(path, MetadataFile)) ==> r.Ok?
    ensures var read := ReadFile(fs, Join(path, MetadataFile));
            ValidSqlMigrationDirectory(fs, path) && Exists(fs, Join(path, MetadataFile)) ==>
              if read.Err? then r == Err(IoError(read.error))
              else if decode(read.value).Err? then r == Err(InvalidMetadata(decode(read.value).error))
              else r.Ok? && r.value.Metadata() == Some(TomlMetadata(decode(read.value).value))
  {
    if ValidSqlMigrationDirectory(fs, path) then
      match VersionFromPath(path)
      case Err(e) => Err(e)
      case Ok(version) =>
        match NewSqlFileMigration(fs, decode, path, version)
        case Err(e) => Err(e)
        case Ok(m) => Ok(Boxed(m))
    else Err(UnknownMigrationFormat(path))
  }

  /**
   * Loading a valid directory whose `metadata.toml` decodes to a table:
   * the migration carries that table, and a lookup in it gives nothing
   * for a missing key, the converted value, or `InvalidMetadata`.
   */
  lemma LoadedMetadataLookup<T>(fs: Fs, decode: Decoder, path: Path, text: string,
                                 table: map<string, TomlValue>, key: string, tryInto: TomlValue -> Result<T, string>)
    requires ValidSqlMigrationDirectory(fs, path) && FileName(path).Some?
    requires ReadFile(fs, Join(path, MetadataFile)) == Ok(text)
    requires decode(text) == Ok(TTable(table))
    ensures MigrationFrom(fs, decode, path).Ok?
    ensures MigrationFrom(fs, decode, path).value.Metadata() == Some(TomlMetadata(TTable(table)))
    ensures key !in table ==> MigrationFrom(fs, decode, path).value.Metadata().value.Get(key, tryInto) == None
    ensures key in table && tryInto(table[key]).Ok? ==>
              MigrationFrom(fs, decode, path).value.Metadata().value.Get(key, tryInto) == Some(Ok(tryInto(table[key]).value))
    ensures key in table && tryInto(table[key]).Err? ==>
              MigrationFrom(fs, decode, path).value.Metadata().value.Get(key, tryInto) == Some(Err(InvalidMetadata(tryInto(table[key]).error)))
  {
  }
}
