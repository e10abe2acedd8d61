/**
 * Migration metadata: `TomlMetadata`, which wraps a decoded
 * `metadata.toml`, and `DummyMetadata`, which holds nothing.
 */
module Metadata {
  import opened Results
  import opened Errors

  /** A decoded TOML value. */
  datatype TomlValue =
    | TString(s: string)
    | TInteger(i: int)
    | TBoolean(b: bool)
    | TArray(items: seq<TomlValue>)
    | TTable(entries: map<string, TomlValue>)
  {
    /** `toml::Value::get` with a string key: the entry, if this is a table holding it. */
    function Get(key: string): Option<TomlValue>
    {
      if TTable? && key in entries then Some(entries[key]) else None
    }
  }

  /** `toml::from_slice`: decodes text, or fails with a description. */
  type Decoder = string -> Result<TomlValue, string>

  datatype TomlMetadata = TomlMetadata(document: TomlValue)
  {
    /**
     * `Metadata::get`: nothing when the key is absent, the converted value
     * when `tryInto` accepts the entry, `InvalidMetadata` when it does not.
     */
    function Get<T>(key: string, tryInto: TomlValue -> Result<T, string>): (r: Option<Result<T, MigrationError>>)
      ensures r.None? <==> document.Get(key).None?
      ensures r.Some? ==> (r.value.Ok? <==> tryInto(document.Get(key).value).Ok?)
      ensures r.Some? && r.value.Ok? ==> r.value.value == tryInto(document.Get(key).value).value
      ensures r.Some? && r.value.Err? ==> r.value.error == InvalidMetadata(tryInto(document.Get(key).value).error)
    {
      match document.Get(key)
      case None => None
      case Some(v) =>
        match tryInto(v)
        case Ok(x) => Some(Ok(x))
        case Err(e) => Some(Err(InvalidMetadata(e)))
    }
  }

  datatype DummyMetadata = DummyMetadata
  {
    /** `Metadata::get` for migrations without metadata: never anything. */
    function Get<T>(key: string): (r: Option<Result<T, MigrationError>>)
      ensures r.None?
    {
      None
    }
  }
}
