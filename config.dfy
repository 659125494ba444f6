/**
 * `load_key_from_file` (src/lib.rs): read a file, parse it as TOML, take the
 * string under `project_id`. Reading the file and parsing TOML are foreign:
 * the model receives the outcome of the read and the parser as parameters.
 */
module Config {
  import opened Prelude
  import opened Errors

  /** `toml::Value`; floats and datetimes are one opaque scalar kind here. */
  datatype TomlValue =
    | TString(s: string)
    | TInteger(i: int)
    | TBoolean(b: bool)
    | TOtherScalar(text: string)
    | TArray(items: seq<TomlValue>)
    | TTable(entries: map<string, TomlValue>)

  const ProjectIdField: string := "project_id"

  /** `Value::get` with a string key: the entry of a table, nothing otherwise. */
  function Get(v: TomlValue, key: string): (r: Option<TomlValue>)
    ensures r.Some? <==> v.TTable? && key in v.entries
  {
    if v.TTable? && key in v.entries then Some(v.entries[key]) else None
  }

  /** `Value::as_str`. */
  function AsStr(v: TomlValue): (r: Option<string>)
    ensures r.Some? <==> v.TString?
  {
    if v.TString? then Some(v.s) else None
  }

  /** Where toml's `Index` (`config[field]`) returns instead of panicking. */
  predicate Indexable(v: TomlValue, key: string) { Get(v, key).Some? }

  function Index(v: TomlValue, key: string): TomlValue
    requires Indexable(v, key)
  {
    Get(v, key).value
  }

  /**
   * `load_key_from_file` as written: `config[field]` panics on a document
   * without the field, so the function is defined only where it does not.
   */
  predicate LoadKeyDoesNotPanic(read: Result<string, IoError>, parse: string -> Result<TomlValue, TomlError>)
  {
    read.Ok? && parse(read.value).Ok? ==> Indexable(parse(read.value).value, ProjectIdField)
  }

  function LoadKeyFromFile(read: Result<string, IoError>, parse: string -> Result<TomlValue, TomlError>): (r: Result<string, Error>)
    requires LoadKeyDoesNotPanic(read, parse)
    ensures read.Err? ==> r == Err(FileRead(read.error))
    ensures read.Ok? && parse(read.value).Err? ==> r == Err(Toml(parse(read.value).error))
    ensures read.Ok? && parse(read.value).Ok? ==>
      (r.Ok? <==> Index(parse(read.value).value, ProjectIdField).TString?)
    ensures r.Ok? ==> r.value == Index(parse(read.value).value, ProjectIdField).s
    ensures r.Err? && r.error.Config? ==> r.error.field == "project_id" && !Index(parse(read.value).value, ProjectIdField).TString?
    ensures read.Ok? && parse(read.value).Ok? && !Index(parse(read.value).value, ProjectIdField).TString? ==>
      r == Err(Config("project_id"))
  {
    match read
    case Err(e) => Err(FileRead(e))
    case Ok(text) =>
      match parse(text)
      case Err(e) => Err(Toml(e))
      case Ok(config) =>
        match AsStr(Index(config, ProjectIdField))
        case None => Err(Config(ProjectIdField))
        case Some(projectId) => Ok(projectId)
  }

  /** A syntactically valid file without `project_id` (here the empty document) makes it panic. */
  lemma MissingFieldPanics(read: Result<string, IoError>, parse: string -> Result<TomlValue, TomlError>)
    requires read.Ok? && parse(read.value) == Ok(TTable(map[]))
    ensures !LoadKeyDoesNotPanic(read, parse)
  {
  }

  /**
   * The intended behaviour, the same function with `config.get(field)` in
   * place of `config[field]`: the three failures are reported separately and
   * a missing field is a `Config` error like a field that is not a string.
   */
  function LoadKey(read: Result<string, IoError>, parse: string -> Result<TomlValue, TomlError>): (r: Result<string, Error>)
    ensures read.Err? ==> r == Err(FileRead(read.error))
    ensures read.Ok? && parse(read.value).Err? ==> r == Err(Toml(parse(read.value).error))
    ensures forall s :: r == Ok(s) <==>
      read.Ok? && parse(read.value).Ok? && Get(parse(read.value).value, ProjectIdField) == Some(TString(s))
    ensures r == Err(Config("project_id")) <==>
      read.Ok? && parse(read.value).Ok? && !(Get(parse(read.value).value, ProjectIdField).Some? && Get(parse(read.value).value, ProjectIdField).value.TString?)
    ensures r.Err? ==> r.error.FileRead? || r.error.Toml? || r.error == Config("project_id")
  {
    match read
    case Err(e) => Err(FileRead(e))
    case Ok(text) =>
      match parse(text)
      case Err(e) => Err(Toml(e))
      case Ok(config) =>
        match Get(config, ProjectIdField)
        case None => Err(Config(ProjectIdField))
        case Some(v) =>
          match AsStr(v)
          case None => Err(Config(ProjectIdField))
          case Some(projectId) => Ok(projectId)
  }

  /** Wherever the code as written returns, the intended version returns the same. */
  lemma LoadKeyAgreesWhereDefined(read: Result<string, IoError>, parse: string -> Result<TomlValue, TomlError>)
    requires LoadKeyDoesNotPanic(read, parse)
    ensures LoadKey(read, parse) == LoadKeyFromFile(read, parse)
  {
  }
}
